# Stacking ensemble and problem-type resolution, modelled in Dafny

This project models two pieces of evalml:

- **`handle_problem_types`** turns a problem type, a string, or an iterable of them into `ProblemTypes` members. Strings are matched case-insensitively. An unknown name raises `KeyError`. A bare member comes back unwrapped. A string or an iterable comes back as a list, or raises `KeyError`. Any other object raises `TypeError`.
- **`EnsembleClassificationPipeline`** is the stacking ensemble. Its `fit`:
  - checks the number of label classes;
  - (re)fits the input pipelines;
  - builds the metalearner's training data from held-out predictions, either fold by fold from clones of the input pipelines or from stored cross-validation data;
  - records the sorted classes.

  `transform` builds the same kind of features for new data. `_preds_processor` renames a prediction table's columns to positions, drops the first of two columns, and names the rest `Col <i> <pipeline>.x`.

Modules:

- `Outcomes` (`outcomes.dfy`): the `Result` and `Option` types and the four Python error kinds.
- `ProblemTypes` (`problem_types.dfy`):
  - the six enum members;
  - the `handle_problem_types` loop, as the method `HandleProblemTypes`, proved equal to the function `Resolve`;
  - lemmas about `Resolve`.
- `Frames` (`frames.dfy`): the table operations the ensemble relies on.
  - `.ww.iloc`
  - `.loc`
  - `pd.concat`, for tables and for label series
  - `ww.concat_columns`

  Tables are column labels, an index, and rows of opaque cells.
- `Reshaping` (`reshaping.dfy`): `_preds_processor`, as a method over the value-level specification `Reshape`.
- `Ensemble` (`ensemble.dfy`):
  - `fit` as a class method whose new state is `FitSpec` of the old state;
  - the nested loops of both training-data paths, as methods proved equal to the specification functions `CvPath` and `StoredPath`;
  - `transform`.
- `EnsembleFacts` (`ensemble_facts.dfy`): what `fit` and `transform` guarantee.
  - which rows, labels and refit pipelines make up the training data;
  - the column layout of the features;
  - the classes;
  - a second unforced `fit` on the same data changes nothing.

Machine-learning calls (`clone`, `fit`, `predict_proba` of a pipeline) are the fields of a `Learner` parameter. The data splitter's folds are a parameter `splits`.

## Model

| member | source | states |
|---|---|---|
| ProblemTypes.FromName | evalml/problem_types/utils.py:23 | lookup by member name: found only for a member's exact name, and then that member |
| ProblemTypes.UnknownMessage | evalml/problem_types/utils.py:25 | the KeyError message embeds the string exactly as given |
| ProblemTypes.Resolve | evalml/problem_types/utils.py:4-27 | a member comes back unwrapped; a string comes back as the one-element list of its lookup, or raises KeyError; an iterable gives a list or an error; any other value raises TypeError |
| ProblemTypes.HandleProblemTypes | evalml/problem_types/utils.py:4-27 | the dispatch and the appending loop compute exactly `Resolve` |
| ProblemTypes.SingleItem | evalml/problem_types/utils.py:15-16 | a string is resolved as the one-item list holding it |
| ProblemTypes.ErrorPersists | evalml/problem_types/utils.py:24-25 | once an item raises, later items do not change the outcome |
| ProblemTypes.ResolveItemsMeaning | evalml/problem_types/utils.py:17-27 | success exactly when every string names a member; on success, one member per string or member item, in input order, members passed through unchanged; errors are KeyErrors |
| ProblemTypes.FirstUnknownRaises | evalml/problem_types/utils.py:21-25 | the first unknown string raises KeyError naming that string, and no list is returned |
| ProblemTypes.ResolveLength | evalml/problem_types/utils.py:18-21 | without error, the list's length is the number of string and member items; other items are skipped |
| ProblemTypes.NameIsUpperCase | evalml/problem_types/utils.py:23 | member names are upper case, so upper-casing a name leaves it unchanged |
| ProblemTypes.CaseInsensitive | evalml/problem_types/utils.py:23 | every casing of a member's name resolves to that member |
| ProblemTypes.StringResolvesIff | evalml/problem_types/utils.py:23 | a string resolves to `[t]` if and only if its upper-cased form is `t`'s name |
| ProblemTypes.ExampleCasings | evalml/problem_types/utils.py:23 | "binary", "Binary" and "BINARY" all give `[BINARY]` |
| ProblemTypes.ExampleUnknown | evalml/problem_types/utils.py:22-25 | an unknown name raises KeyError with the original spelling in the message |
| Frames.ILoc | evalml/pipelines/ensemble_classification_pipelines.py:191 | `.iloc` succeeds exactly when every position is in range (negative positions count from the end), else IndexError; the selection keeps the columns and has one row per position |
| Frames.ILocSeries | evalml/pipelines/ensemble_classification_pipelines.py:192 | the same for the label series |
| Frames.Loc | evalml/pipelines/ensemble_classification_pipelines.py:167 | `.loc` succeeds exactly when every label is in the index, else KeyError; the selection keeps the columns |
| Frames.LocAlignsToLabels | evalml/pipelines/ensemble_classification_pipelines.py:167 | on an index without repeats, `.loc[labels]` gives one row per label, with index `labels` and the same columns |
| Frames.LocPositionsUnique | evalml/pipelines/ensemble_classification_pipelines.py:167 | on an index without repeats, the k-th selected row carries the k-th label |
| Frames.ConcatRows | evalml/pipelines/ensemble_classification_pipelines.py:161 | `pd.concat` fails exactly on no blocks, with ValueError; otherwise all blocks' rows, with their index labels in block order |
| Frames.ConcatRowsSameColumns | evalml/pipelines/ensemble_classification_pipelines.py:202 | blocks that share their columns stack without NaN filling, rows and index in block order |
| Frames.ConcatSeries | evalml/pipelines/ensemble_classification_pipelines.py:203 | concatenating label series fails exactly on none, with ValueError |
| Frames.ConcatColumns | evalml/pipelines/ensemble_classification_pipelines.py:164 | `concat_columns` succeeds exactly on a non-empty list whose column labels are all distinct, and otherwise raises ValueError for the empty list or the duplicate column; the columns are the blocks' columns in order, on the first block's index |
| Reshaping.Reshape | evalml/pipelines/ensemble_classification_pipelines.py:113-123 | two columns become one, any other count is kept; the index and the number of rows are unchanged |
| Reshaping.DigitsRoundTrip | evalml/pipelines/ensemble_classification_pipelines.py:121 | `str(i)` is decimal digits that read back as `i` |
| Reshaping.ColumnNameInjective | evalml/pipelines/ensemble_classification_pipelines.py:121 | `Col {i} {name}.x` determines both `i` and `name` |
| Reshaping.ReshapeTwoColumns | evalml/pipelines/ensemble_classification_pipelines.py:117-122 | for two columns, one column `Col 1 <name>.x` holding the second input column |
| Reshaping.ReshapeOtherColumns | evalml/pipelines/ensemble_classification_pipelines.py:113-123 | for any other column count n, columns `Col 0 <name>.x` … `Col n-1 <name>.x` in order, and rows unchanged |
| Reshaping.ReshapeIgnoresLabels | evalml/pipelines/ensemble_classification_pipelines.py:113-116 | the reshaping does not depend on the original column labels |
| Reshaping.ReshapeNamesDisjoint | evalml/pipelines/ensemble_classification_pipelines.py:120-122 | features of differently named pipelines share no column |
| Reshaping.PositionalMapping | evalml/pipelines/ensemble_classification_pipelines.py:113-115 | the loop maps each column label to its position |
| Reshaping.RenameToPositions | evalml/pipelines/ensemble_classification_pipelines.py:116 | renaming by that mapping labels the columns `0..n-1`, cells untouched |
| Reshaping.KeptFeatures | evalml/pipelines/ensemble_classification_pipelines.py:117-122 | dropping column 0 of two and renaming the positions gives exactly `Reshape` |
| Reshaping.PredsProcessor | evalml/pipelines/ensemble_classification_pipelines.py:110-123 | a non-DataFrame raises ValueError; otherwise the caller's table is left with positional labels and the result is `Reshape` of the input |
| Ensemble.EnsembleClassificationPipeline.Fit | evalml/pipelines/ensemble_classification_pipelines.py:125-208 | the new fields and the result are exactly `FitSpec` of the old fields, whose meaning the `EnsembleFacts.Fit…` lemmas state |
| Ensemble.CheckClasses | evalml/pipelines/ensemble_classification_pipelines.py:142-147 | rejects with ValueError exactly when a binary problem does not have 2 classes, or a multiclass problem has 1 or 2 (0 classes passes) |
| Ensemble.SortedDistinct | evalml/pipelines/ensemble_classification_pipelines.py:207 | `np.unique`: strictly increasing, with the same values as its input |
| Ensemble.ReshapedPredictionsErrorPersists | evalml/pipelines/ensemble_classification_pipelines.py:194-197 | the first non-DataFrame prediction decides the outcome of the loop over pipelines |
| Ensemble.CvFoldsErrorPersists | evalml/pipelines/ensemble_classification_pipelines.py:189-200 | the first failing fold decides the outcome of the fold loop |
| Ensemble.RefitAndPredict | evalml/pipelines/ensemble_classification_pipelines.py:194-197 | the loop over the clones refits each on the training rows and gives their reshaped predictions on the validation rows, or the first error |
| Ensemble.AssembleCv | evalml/pipelines/ensemble_classification_pipelines.py:181-203 | the cloning loop, the fold loop and the final concatenations compute exactly `CvPath` |
| Ensemble.StoredPairsErrorPersists | evalml/pipelines/ensemble_classification_pipelines.py:158-159 | after the first failing pair, later stored pairs are left as they were and the error stands |
| Ensemble.StoredPairsNext | evalml/pipelines/ensemble_classification_pipelines.py:158-159 | one pair: a DataFrame is renamed in place and its block appended; anything else raises ValueError |
| Ensemble.ProcessStoredPairs | evalml/pipelines/ensemble_classification_pipelines.py:157-159 | the loop over one pipeline's pairs computes `StoredPairs`: the renamed pairs and the blocks, or the first error |
| Ensemble.ProcessStoredPipeline | evalml/pipelines/ensemble_classification_pipelines.py:157-162 | one stored pipeline: its pairs processed and its blocks stacked by rows |
| Ensemble.StoredBlocksFirst | evalml/pipelines/ensemble_classification_pipelines.py:156-162 | a failing pipeline stops the loop over the stored pipelines and leaves later ones untouched; otherwise its stacked block comes first |
| Ensemble.CollectStored | evalml/pipelines/ensemble_classification_pipelines.py:156-162 | the loop over the stored pipelines computes `StoredBlocks` |
| Ensemble.AssembleStored | evalml/pipelines/ensemble_classification_pipelines.py:155-167 | the stored path computes exactly `StoredPath`, including the stored data as the in-place renames leave them |
| EnsembleFacts.ReshapedPredictionsOutcome | evalml/pipelines/ensemble_classification_pipelines.py:213-216 | `transform`'s loop succeeds exactly when every pipeline predicts a DataFrame, and otherwise raises the processor's ValueError |
| EnsembleFacts.ReshapedPredictionsBlocks | evalml/pipelines/ensemble_classification_pipelines.py:213-216 | on success, block j is pipeline j's reshaped prediction |
| EnsembleFacts.SplitsInBoundsSnoc | evalml/pipelines/ensemble_classification_pipelines.py:191-192 | in-range splits stay in range when an in-range split is appended |
| EnsembleFacts.CvFoldsLabels | evalml/pipelines/ensemble_classification_pipelines.py:189-200 | one block and one label series per fold; fold k's labels are `y` at its validation positions |
| EnsembleFacts.CvFoldsClones | evalml/pipelines/ensemble_classification_pipelines.py:184-195 | the clones are made once, and clone j ends up as input pipeline j's clone refit on every fold's training rows in turn |
| EnsembleFacts.CvFoldsPrefix | evalml/pipelines/ensemble_classification_pipelines.py:189-200 | the loop over a prefix of the folds gathers a prefix of the blocks |
| EnsembleFacts.LastFoldFeatures | evalml/pipelines/ensemble_classification_pipelines.py:194-199 | the last fold's features are what `transform` builds from the clones refit through that fold, on its validation rows |
| EnsembleFacts.CvFoldsFeatures | evalml/pipelines/ensemble_classification_pipelines.py:189-199 | fold k's features are what `transform` builds from the clones refit through fold k, on fold k's validation rows |
| EnsembleFacts.HeldOutLength | evalml/pipelines/ensemble_classification_pipelines.py:189-203 | the held-out values number the total count of validation positions |
| EnsembleFacts.StackedLabels | evalml/pipelines/ensemble_classification_pipelines.py:200-203 | stacking the folds' label series gives `y`'s held-out values and index, fold after fold |
| EnsembleFacts.StackedBlocks | evalml/pipelines/ensemble_classification_pipelines.py:199-202 | stacking blocks that sit on each fold's validation rows gives `x`'s held-out index |
| EnsembleFacts.FeaturesRows | evalml/pipelines/ensemble_classification_pipelines.py:213-218 | joined features sit on the rows they were predicted for, when predictions keep their rows |
| EnsembleFacts.CvPathLabels | evalml/pipelines/ensemble_classification_pipelines.py:189-203 | the metalearner's labels are `y` at each fold's validation positions, in fold order |
| EnsembleFacts.FoldBlockRows | evalml/pipelines/ensemble_classification_pipelines.py:191-199 | when predictions keep their rows, a fold's features sit on its validation rows of `x` |
| EnsembleFacts.BlocksOnValidRows | evalml/pipelines/ensemble_classification_pipelines.py:189-199 | when predictions keep their rows, blocks that are each fold's features sit on that fold's validation rows |
| EnsembleFacts.CvFoldsBlockRows | evalml/pipelines/ensemble_classification_pipelines.py:194-199 | each fold's features sit on its validation rows of `x` |
| EnsembleFacts.CvPathFeatureRows | evalml/pipelines/ensemble_classification_pipelines.py:189-203 | the metalearner's feature rows are `x`'s held-out rows in fold order, as many as the labels, aligned with them when `x` and `y` share an index |
| EnsembleFacts.StoredPairsRenamed | evalml/pipelines/ensemble_classification_pipelines.py:158-159 | without error, every stored prediction is a DataFrame, is renamed to positions in place, and contributes its reshaped block |
| EnsembleFacts.PositionalIdempotent | evalml/pipelines/ensemble_classification_pipelines.py:116 | renaming to positions twice is renaming once |
| EnsembleFacts.StoredPairsIdempotent | evalml/pipelines/ensemble_classification_pipelines.py:158-159 | processing the renamed pairs again changes nothing and gives the same blocks or error |
| EnsembleFacts.StoredPipelineIdempotent | evalml/pipelines/ensemble_classification_pipelines.py:157-161 | the same for one stored pipeline |
| EnsembleFacts.StoredBlocksIdempotent | evalml/pipelines/ensemble_classification_pipelines.py:156-162 | the same for the loop over the stored pipelines |
| EnsembleFacts.StoredPathIdempotent | evalml/pipelines/ensemble_classification_pipelines.py:155-167 | running the stored path again on the data it renamed gives the same data and the same result |
| EnsembleFacts.StoredPathLabels | evalml/pipelines/ensemble_classification_pipelines.py:164-167 | the labels are `y`; features with `y`'s row count are used as joined; otherwise they are re-selected by `y`'s index, landing exactly on it when the joined index has no repeats |
| EnsembleFacts.StoredBlocksRenamed | evalml/pipelines/ensemble_classification_pipelines.py:156-162 | without error, every stored pipeline keeps its name and pairs, with its predictions renamed to positions |
| EnsembleFacts.FitRejectsLabels | evalml/pipelines/ensemble_classification_pipelines.py:142-147 | a rejected label count raises ValueError and leaves the ensemble as it was |
| EnsembleFacts.FitOutcomeMeaning | evalml/pipelines/ensemble_classification_pipelines.py:149-207 | the input pipelines are fitted on (X, y) when not fitted yet or when forced, and are marked fitted; a later failure keeps the old metalearner data and classes; success records the data and its sorted distinct labels |
| EnsembleFacts.FitChoosesPath | evalml/pipelines/ensemble_classification_pipelines.py:155-203 | stored data without a forced retrain take the stored path with `y` as labels; otherwise the internal cross-validation path over the (re)fitted pipelines runs and the stored data are untouched |
| EnsembleFacts.FitIdempotent | evalml/pipelines/ensemble_classification_pipelines.py:125-208 | a second unforced `fit` on the same data leaves the state as the first left it and returns the same result |
| EnsembleFacts.IncreasingCount | evalml/pipelines/ensemble_classification_pipelines.py:207 | a strictly increasing list has as many distinct values as entries |
| EnsembleFacts.SortedDistinctCount | evalml/pipelines/ensemble_classification_pipelines.py:207 | `np.unique` gives one entry per distinct label |
| EnsembleFacts.FitBinaryClasses | evalml/pipelines/ensemble_classification_pipelines.py:142-143 | a binary ensemble fitted from stored data records exactly two classes |
| Ensemble.EnsembleClassificationPipeline.Transform | evalml/pipelines/ensemble_classification_pipelines.py:210-218 | raises ValueError while the input pipelines are unfitted; a result is only produced when they are fitted and all predict DataFrames, and its columns are the reshaped blocks' columns in input-pipeline order |
| EnsembleFacts.TransformOutcome | evalml/pipelines/ensemble_classification_pipelines.py:210-218 | unfitted input pipelines raise ValueError; every failure is a ValueError; a non-DataFrame prediction raises the processor's ValueError, and no input pipelines at all fail; differently named fitted pipelines that all predict DataFrames succeed, with their reshaped columns in input-pipeline order, on the input's rows when predictions keep their rows |
| EnsembleFacts.AllColumnsMember | evalml/pipelines/ensemble_classification_pipelines.py:218 | every joined column comes from some block |
| EnsembleFacts.DistinctConcat | evalml/pipelines/ensemble_classification_pipelines.py:218 | two label lists without repeats or shared labels join without repeats |
| EnsembleFacts.ReshapedColumnsDistinct | evalml/pipelines/ensemble_classification_pipelines.py:213-218 | the reshaped blocks of differently named pipelines have no column label in common |
| EnsembleFacts.FeaturesLayout | evalml/pipelines/ensemble_classification_pipelines.py:213-218 | differently named pipelines that all predict DataFrames give features whose columns are each pipeline's reshaped columns, in input-pipeline order, on the input's rows when predictions keep their rows |
| EnsembleFacts.RefitKeepsName | evalml/pipelines/ensemble_classification_pipelines.py:189-195 | when fitting does not rename a pipeline, a clone refit fold after fold keeps its name |
| EnsembleFacts.TransformBinaryColumns | evalml/pipelines/ensemble_classification_pipelines.py:213-218 | with two-column predictions, any features `transform` builds are one column `Col 1 <name>.x` per pipeline, in order |
| EnsembleFacts.FoldColumns | evalml/pipelines/ensemble_classification_pipelines.py:184-199 | with name-keeping `clone`/`fit` and two-column predictions, every fold's features are one column per input pipeline, named after it |
| EnsembleFacts.CvPathColumns | evalml/pipelines/ensemble_classification_pipelines.py:179-203 | under the same assumptions, the metalearner's training matrix on the internal cross-validation path has exactly one column `Col 1 <name>.x` per input pipeline, in input-pipeline order |
| EnsembleFacts.FitTransformColumns | evalml/pipelines/ensemble_classification_pipelines.py:125-218 | under the same assumptions, `transform` after `fit` yields those same columns, so the metalearner sees at transform time the columns it was trained on by the internal cross-validation path |
| EnsembleFacts.AllColumnsOfSingles | evalml/pipelines/ensemble_classification_pipelines.py:218 | joining one-column blocks lists their columns in order |
| EnsembleFacts.FeaturesBinaryColumns | evalml/pipelines/ensemble_classification_pipelines.py:117-122 | when every pipeline predicts two probability columns, as in a binary problem, the features are one column `Col 1 <name>.x` per pipeline, in input-pipeline order |


## Left out

- `_predict` and `predict_proba` (lines 83-108) delegate to a base class that is not part of this model.
- The default component graph in `__init__` (lines 56-81) and the subclasses (lines 221-302) only configure names and components.
- `infer_feature_types` (lines 139-140) is dtype inference only. Inputs are taken as already-typed tables.
- `make_data_splitter` and `split` (lines 170-179) are external. The folds are the parameter `splits`, and a splitter given as `None` is not distinguished.
- `pipeline.clone`, `pipeline.fit`, `pipeline.predict_proba` and `component_graph.fit` are machine-learning calls.
  - The first three are the functions of a `Learner` parameter.
  - Pipelines are values, so a refit is a new value; aliasing between pipeline objects is not modelled.
  - The metalearner fit is recorded as the data it was trained on (`trainedOn`).
- `_fit_input_pipelines` and `_all_input_pipelines_fitted` live in a base class that is not part of this model. They are modelled as fitting every input pipeline on (X, y) and setting the flag.
- The `ProblemTypes` enum and `is_binary`/`is_multiclass` are not in the source files modelled here.
  - The enum is modelled with its six members.
  - `is_binary` and `is_multiclass` are modelled as including the time-series variants.
- `str.upper()` is modelled on ASCII letters only. Other Unicode case mappings are not modelled.
- Cells are opaque values, so probabilities and dtypes are not modelled. Index labels and class labels are integers.
- Frames.ConcatColumns: lines up rows by position and keeps the first block's index. Woodwork aligns on index labels. The two agree when every block sits on the same rows, which `EnsembleFacts.FeaturesRows` shows for predictions that keep their rows.
- Frames.ConcatRows: a column that some blocks lack is filled with a NaN cell. The dtype promotion pandas applies then is not modelled.
- `force_retrain is True` / `is False` (lines 149, 155) are identity tests. The model takes `forceRetrain` as a `bool`, so truthy non-bool values are not modelled.
- The stored-path loop variable `X` (line 158) shadows the input `X`. Since the input is not used again on that path, the model ignores it.
- Error messages from pandas and woodwork are paraphrased. Only their error kinds are modelled faithfully.
- Ensemble.FitSpec: the order of effects inside the fold loop is not kept. All clones of a fold are refit before any prediction is checked. The results agree, because refits are values and the first failing prediction decides the error either way.
- The column layout of the metalearner's features (`EnsembleFacts.CvPathColumns`, `EnsembleFacts.FitTransformColumns`) is proved only for a `Learner` whose `clone` and `fit` keep a pipeline's name (`KeepsNames`) and whose predictions have two columns (`TwoClassPredictions`). The model leaves these calls free, so both are stated as assumptions. For more than two classes, `EnsembleFacts.FeaturesLayout` gives the columns in terms of each pipeline's reshaped block.
