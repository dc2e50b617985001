# glupredkit core, modelled in Dafny

This project models the small, sequential pieces of the glupredkit blood-glucose
prediction toolkit and proves properties of them:

- **Event alignment for the Loop model** (`LoopAlignment`, `LoopModel`):
  - row cells are selected by label prefix, and each label becomes a timestamp
    ("now", "now + N" for `what_if` labels, "now − N" otherwise);
  - zero carb and bolus cells are dropped;
  - basal and bolus dose records are built and merged in start-time order;
  - per-subject therapy settings come from total daily insulin (the 1800, 500
    and 45 % rules);
  - the simulator's output is trimmed to the prediction horizon.
- **Sign-constrained multi-output ridge model** (`RidgeModel`):
  - sign constraints come from feature-name prefixes;
  - the coefficient matrix and intercept array are filled one output at a time
    by an abstract solver;
  - prediction is a matrix-vector product plus the intercept;
  - the saved record holds the transposed coefficients.
- **Glycemic metrics**:
  - `Glycemia`: the three-zone classification and the 3×3 matrix of
    conditional fractions;
  - `Hypoglycemia`: the hypoglycemia hit rate;
  - `Rmse`: root mean squared error.
- **Record partitioning and configuration** (`TidepoolParser`, `ModelConfig`,
  `UnitConfig`):
  - Tidepool events are partitioned by their `type` tag;
  - a model configuration is generated, checked against its schema in order,
    and read back through its getters;
  - the mg/dL setting and the mmol/L conversion.

Helper modules:

- `Common`: `Option`, `Result` and `Distinct`.
- `PyStrings`: Python's `startswith`, `in`, `split("_")[-1]` and `int()`.
- `StableSort`: a stable sort by an integer key. It is proved to be the only
  sequence that is both sorted and stable, so it stands for Python's
  `list.sort`.
- `JsonValues`: JSON values, with Python truthiness and `isinstance`.

Conventions:

- Numbers are Dafny `real`, and timestamps are whole minutes.
- A floating-point NaN or infinity is `None`.
- Engines outside this code become function parameters:
  - the physiology simulator is `simulate`;
  - the convex solver is `solve`;
  - pandas' per-day grouping is `dailySums`;
  - `sqrt` is a function assumed to return the non-negative root;
  - `json_normalize` is `normalise`.
- An exception raised by the code becomes an `Err` value of a `Result`.
- Code that updates state in place is modelled as classes:
  - the two model objects (`LoopModel.Model` with its setting lists,
    `RidgeModel.Model` with its arrays);
  - the caller's feature list (`ModelConfig.FeatureList`);
  - the settings object (`UnitConfig.ConfigManager`).
- Loops are modelled as methods, each proved against a specification function.

The confusion matrix of `glycemia_detection.py` is indexed
`[predicted zone][true zone]` (line 35 reshapes row-major with `i`, the
predicted zone, outermost). So each *column* sums to one, not each row. The
model follows the code.

## Model

| member | source | states |
|---|---|---|
| LoopAlignment.Select | glupredkit/models/loop.py:91 | only cells whose label starts with the prefix are collected, never more cells than the row has |
| LoopAlignment.SelectMembers | glupredkit/models/loop.py:91 | a cell is collected exactly when it is in the row and its label starts with the prefix |
| LoopAlignment.SelectAppend | glupredkit/models/loop.py:91 | selection preserves column order: selecting from a concatenation is the concatenation of the selections |
| LoopAlignment.DropZeros | glupredkit/models/loop.py:132 | the prefixed cells that remain are exactly the non-zero ones, and every other cell is untouched; the same filter is applied to bolus cells at line 180 |
| PyStrings.LastSegment | glupredkit/models/loop.py:100 | `split("_")[-1]`: the suffix after the last underscore, free of underscores |
| PyStrings.LastSegmentAfterUnderscore | glupredkit/models/loop.py:100 | the last segment of `a + "_" + b` is `b` when `b` has no underscore |
| PyStrings.ParseInt | glupredkit/models/loop.py:100 | on labels without whitespace and with ASCII digits only, `int()` succeeds exactly on an optionally signed run of digits, with the sign of its literal |
| PyStrings.ParseIntRoundTrip | glupredkit/models/loop.py:100 | parsing the decimal spelling of any integer gives back that integer |
| PyStrings.DigitsRoundTrip | glupredkit/models/loop.py:100 | the digits of a natural number read back as that number |
| LoopAlignment.EntryDate | glupredkit/models/loop.py:95-105 | the exact column name gets the row's time; any other label has a date exactly when its last segment is an integer literal |
| LoopAlignment.WhatIfLabelDate | glupredkit/models/loop.py:98-101 | a `<column>_what_if_<n>` label is dated n minutes after the row |
| LoopAlignment.LagLabelDate | glupredkit/models/loop.py:102-105 | a `<column>_<n>` label is dated n minutes before the row |
| LoopAlignment.Collect | glupredkit/models/loop.py:94-105 | one pair per selected cell, in order, with its date and value; otherwise the error names the first label whose offset `int()` rejects |
| LoopAlignment.CollectDatesAndValues | glupredkit/models/loop.py:152-168 | the loop computes exactly `Collect` of the selected cells |
| LoopAlignment.GetDatesAndValues | glupredkit/models/loop.py:90-118 | the pairs are sorted by date, a permutation of the collected pairs, and pairs with equal dates keep their column order |
| LoopAlignment.EmptySelectionCollectsNothing | glupredkit/models/loop.py:107-109 | with no selected cell the result is the empty list |
| StableSort.Insert | glupredkit/models/loop.py:114 | inserting into a sorted list keeps it sorted and adds exactly the one element |
| StableSort.SortBy | glupredkit/models/loop.py:114 | `list.sort(key=…)`: the result is sorted by the key and a permutation of the input |
| StableSort.InsertWithKey | glupredkit/models/loop.py:114 | insertion places the new element after every element with the same key |
| StableSort.SortByStable | glupredkit/models/loop.py:114 | elements with equal keys keep their relative order |
| StableSort.WithKeyMember | glupredkit/models/loop.py:114 | the elements with key d are elements of the list whose key is d |
| StableSort.LastIsLargest | glupredkit/models/loop.py:114 | the last element of a sorted list has the largest key |
| StableSort.LastsAgree | glupredkit/models/loop.py:114 | two sorted lists with the same order within each key end with the same element |
| StableSort.InitsAgree | glupredkit/models/loop.py:114 | removing that common last element keeps the order within each key equal |
| StableSort.StableSortIsUnique | glupredkit/models/loop.py:114 | two lists that are sorted and have the same order within each key are equal |
| StableSort.SortByIsTheStableSort | glupredkit/models/loop.py:114 | any sorted, stable rearrangement of a list is `SortBy` of it, so the model's sort agrees with Python's |
| LoopAlignment.AsWrittenBasalRecordsAreScheduled | glupredkit/models/loop.py:172 | `get_dose_type("tempbasal")` misses the `"temp"` branch, so every basal record the code builds is a scheduled basal, not the temporary basal intended |
| LoopAlignment.GetDoseType | glupredkit/models/loop.py:144-150 | the lookup yields a temporary basal exactly for `"temp"` and a bolus exactly for `"bolus"`, a scheduled basal for anything else |
| LoopAlignment.BasalDosesAsWritten | glupredkit/models/loop.py:172-178 | the code's basal records, one per basal pair, of kind `get_dose_type("tempbasal")`, which `AsWrittenBasalRecordsAreScheduled` shows is the scheduled basal |
| LoopAlignment.BasalDoses | glupredkit/models/loop.py:171-178 | the intended basal records, one per basal pair, of the temporary-basal kind the comment names (see Findings); `MergedDoseShape` states their shape |
| LoopAlignment.InsulinRecords | glupredkit/models/loop.py:170-195 | the specification `GetInsulinData` is proved against: the two collections' first error, or the basal (corrected kind) and bolus records merged by a stable sort on start time; `InsulinRecordsShape` states its properties |
| LoopAlignment.Unzip | glupredkit/models/loop.py:198 | `zip(*combined)` unpacking fails exactly when there are no records, with the no-doses error |
| LoopAlignment.UnzipRoundTrip | glupredkit/models/loop.py:198-205 | the five lists have equal length and zip back to the records |
| LoopAlignment.GetInsulinData | glupredkit/models/loop.py:143-207 | the method computes the merged, sorted and unzipped dose records of `InsulinRecords`, whose basal records carry the intended temporary-basal kind rather than the code's scheduled basal (see Findings) |
| LoopAlignment.InsulinRecordsShape | glupredkit/models/loop.py:170-195 | the merged records are sorted by start time and number one per basal cell plus one per non-zero bolus cell; each is a basal record ending 5 minutes after its start, of the intended temporary-basal kind rather than the code's scheduled basal (see Findings), or a bolus ending at its start |
| LoopAlignment.MergedDoseShape | glupredkit/models/loop.py:172-185 | every record built from a basal cell is of the corrected temporary-basal kind (see Findings) and ends 5 minutes after its start, and every record built from a bolus cell is a bolus ending at its start |
| LoopAlignment.NoDosesIffNoCells | glupredkit/models/loop.py:198 | the unpack fails exactly when the row has no basal cell and no non-zero bolus cell |
| LoopAlignment.GetInputDict | glupredkit/models/loop.py:209-249 | one schedule entry per setting starting at midnight, holding the given ISF, CR and basal; the basal runs all day; the insulin model is [DIA, 75]; the target minimum lies below its maximum |
| LoopAlignment.GetPredictionOutput | glupredkit/models/loop.py:81-140 | the simulator receives the sorted glucose pairs, the insulin records (basal ones of the corrected temporary-basal kind), and the sorted non-zero carb pairs with a 180-minute absorption each; the calculation time defaults to the row's own time; any error on the way is returned |
| LoopAlignment.CarbInputShape | glupredkit/models/loop.py:132-138 | the carb list holds one pair per non-zero carb cell, sorted by date, all non-zero, each with absorption time 180 |
| LoopAlignment.PredictionCarbs | glupredkit/models/loop.py:132-138 | the carb pairs are those of the zero-dropped row, collected and sorted, and the absorption list has one 180 per pair |
| LoopAlignment.PredictionInput | glupredkit/models/loop.py:81-138 | the simulator input `GetPredictionOutput` is proved against: the first error of the glucose, insulin and carb collections, otherwise the assembled record; `PredictionCarbs` and `CarbInputShape` state its carb fields |
| LoopAlignment.SortedNonZero | glupredkit/models/loop.py:132-133 | sorting the carb pairs by date keeps every value non-zero |
| LoopModel.UniqueIds | glupredkit/models/loop.py:21 | `unique()`: the subject ids without repetition, containing every row's id and nothing else |
| LoopModel.FirstIndex | glupredkit/models/loop.py:21 | the position of a subject's first row, or the row count when it has none |
| LoopModel.UniqueIdsInFirstAppearanceOrder | glupredkit/models/loop.py:21 | the subjects are listed in order of first appearance: each one's first row precedes the first row of every subject after it |
| LoopModel.FirstAppearanceSnoc | glupredkit/models/loop.py:21 | appending a row keeps the order of the subjects seen so far and lists a new subject last |
| LoopModel.Insulin | glupredkit/models/loop.py:22 | the per-row insulin: the bolus plus the hourly basal rate spread over a five-minute row; a definition, used by `DailyAverageInsulin` |
| LoopModel.DailyAverageInsulin | glupredkit/models/loop.py:26-28 | defined exactly when the subject has at least one daily sum, and then times the number of days it gives their total |
| LoopModel.Mean | glupredkit/models/loop.py:28 | the mean exists exactly for a non-empty list and times the length gives the sum |
| LoopModel.Setting | glupredkit/models/loop.py:32-34 | ISF·TDI = 1800 and CR·TDI = 500 whenever TDI ≠ 0 (otherwise undefined); 24·basal = 0.45·TDI |
| LoopModel.SubjectSettings | glupredkit/models/loop.py:25-34 | one derived setting per subject, in subject order |
| LoopModel.Model.constructor | glupredkit/models/loop.py:12-18 | DIA is 360, there are no subjects, and the setting lists are empty |
| LoopModel.Model.Fit | glupredkit/models/loop.py:20-38 | records the unique subject ids, and appends one ISF, CR and basal per subject to the existing lists, never resetting them |
| LoopModel.PredictionIndex | glupredkit/models/loop.py:52 | `int(horizon / 5)` truncates toward zero, for either sign |
| LoopModel.SliceBound | glupredkit/models/loop.py:76 | Python's clamping of a slice bound |
| LoopModel.PySlice | glupredkit/models/loop.py:76 | a Python slice is the plain subsequence when its bounds are in range, and never longer than the list |
| LoopModel.AsWrittenTrajectoryIsShort | glupredkit/models/loop.py:71-76 | as written, an output of exactly `prediction_index` values passes the check and yields a trajectory one value short |
| LoopModel.TrajectoryAsWritten | glupredkit/models/loop.py:71-76 | the code's check: a row is skipped below `prediction_index` values, else `output[1:prediction_index + 1]` is kept; `AsWrittenTrajectoryIsShort` shows the short case |
| LoopModel.Trajectory | glupredkit/models/loop.py:71-76 | the corrected check (see Findings): a row is kept exactly when the output has more than `prediction_index` values; `TrajectoryHasHorizonLength` states its length and where it agrees with the code |
| LoopModel.TrajectoryHasHorizonLength | glupredkit/models/loop.py:71-76 | corrected, a row contributes exactly when the output has more than `prediction_index` values, and then contributes elements 1..prediction_index; on every other length it agrees with the code |
| LoopModel.SubjectRows | glupredkit/models/loop.py:59 | a subject's rows are among the test rows |
| LoopModel.RowsIn | glupredkit/models/loop.py:58-60 | the rows of the listed subjects are among the test rows |
| LoopModel.RowTrajectories | glupredkit/models/loop.py:64-77 | the specification `PredictSubject` is proved against: row by row, the first error, or the kept trajectories in row order (corrected check); `RowTrajectoriesShape` states its shape |
| LoopModel.SubjectsFrom | glupredkit/models/loop.py:58-77 | the specification `PredictSubjects` is proved against: subject by subject, a missing-settings error, the first row error, or the concatenated trajectories; `SubjectsFromShape` states its shape |
| LoopModel.PredictSpec | glupredkit/models/loop.py:45-79 | what `predict` returns: nothing for zero rows, the not-fitted error, or the trajectories of `SubjectsFrom`; `Model.Predict` is proved equal to it and `PredictShape` states its shape |
| LoopModel.RowsInCons | glupredkit/models/loop.py:58-60 | for distinct subjects, the row counts add up |
| LoopModel.RowTrajectoriesShape | glupredkit/models/loop.py:64-77 | under the corrected horizon check (see Findings), a subject yields at most one trajectory per row, each of the horizon's length |
| LoopModel.SubjectsFromShape | glupredkit/models/loop.py:58-77 | under the corrected horizon check (see Findings), over distinct subjects, at most one trajectory per row of those subjects, each of the horizon's length |
| LoopModel.PredictShape | glupredkit/models/loop.py:45-79 | under the corrected horizon check (see Findings), at most as many trajectories as test rows, each of length `prediction_index` |
| LoopModel.PredictSubject | glupredkit/models/loop.py:64-77 | the inner loop computes the subject's trajectories as `RowTrajectories` defines them, with the corrected horizon check (see Findings) |
| LoopModel.PredictSubjects | glupredkit/models/loop.py:58-77 | the outer loop computes the trajectories of the subjects in recorded order as `SubjectsFrom` defines them (corrected horizon check, see Findings), or the first error |
| LoopModel.Model.Predict | glupredkit/models/loop.py:40-79 | no data for zero rows; otherwise an error if unfitted or a setting index is missing; the trajectories are at most one per row |
| RidgeModel.IndicesWithPrefix | glupredkit/models/ridge_multioutput_constrained.py:65-68 | the enumerated indices whose name starts with the prefix, and no others |
| RidgeModel.AtMost | glupredkit/models/ridge_multioutput_constrained.py:65-67 | exactly one ≤ 0 constraint per given index |
| RidgeModel.AtLeast | glupredkit/models/ridge_multioutput_constrained.py:68 | exactly one ≥ 0 constraint per given index |
| RidgeModel.Constraints | glupredkit/models/ridge_multioutput_constrained.py:65-68 | a ≤ 0 constraint exactly on the `insulin`/`iob`/`caloriesburned` features and a ≥ 0 constraint exactly on the `carbs` features; every constraint names a valid feature |
| RidgeModel.FeasibleIffSignConstrained | glupredkit/models/ridge_multioutput_constrained.py:64-68 | coefficients satisfy the constraints exactly when insulin-like coefficients are ≤ 0 and carb coefficients ≥ 0 |
| RidgeModel.DotUpdate | glupredkit/models/ridge_multioutput_constrained.py:95 | changing one feature changes the dot product by the change times its coefficient |
| RidgeModel.MoreInsulinNeverRaisesPrediction | glupredkit/models/ridge_multioutput_constrained.py:64 | under the constraints, more insulin never raises a prediction and more carbs never lower it |
| RidgeModel.ProductSign | glupredkit/models/ridge_multioutput_constrained.py:64 | the sign of a product with a non-negative factor |
| RidgeModel.Column | glupredkit/models/ridge_multioutput_constrained.py:37 | `iloc[:, h]`: the h-th value of every row |
| RidgeModel.SolvedCoefficientsAreSignConstrained | glupredkit/models/ridge_multioutput_constrained.py:64-78 | a solver meeting the constraints yields sign-constrained coefficients for every output |
| RidgeModel.Solutions | glupredkit/models/ridge_multioutput_constrained.py:31-78 | one solve per output column, each of the problem for that column, with one coefficient per feature |
| RidgeModel.BetaColumn | glupredkit/models/ridge_multioutput_constrained.py:77 | `beta[:, h]`: the h-th entry of every row |
| RidgeModel.Model.constructor | glupredkit/models/ridge_multioutput_constrained.py:11-18 | the default λ is 0.1; unfitted, with no feature names |
| RidgeModel.Model.Fit | glupredkit/models/ridge_multioutput_constrained.py:20-80 | records the feature names; allocates beta as n_features × n_outputs and intercept as n_outputs; column h and intercept[h] are the solve for output h |
| RidgeModel.StoreColumn | glupredkit/models/ridge_multioutput_constrained.py:77 | column h becomes the solved coefficients and every other entry is kept |
| RidgeModel.Model.Predict | glupredkit/models/ridge_multioutput_constrained.py:82-105 | "not fitted" when unfitted; a shape error exactly when there are outputs and the column counts differ; otherwise y[r][h] = Σ x[r][k]·beta[k][h] + intercept[h] |
| RidgeModel.Model.SaveModelWeights | glupredkit/models/ridge_multioutput_constrained.py:124-146 | the record holds the output count, the feature count, the names, the transposed coefficients and the intercepts in order; it fails when unfitted |
| RidgeModel.SavedCoefficientsAreTransposed | glupredkit/models/ridge_multioutput_constrained.py:126 | `coefficients[h][k] == beta[k][h]` |
| Glycemia.Zone | glupredkit/metrics/glycemia_detection.py:38-44 | every value's zone is one of the three |
| Glycemia.Condition | glupredkit/metrics/glycemia_detection.py:38-44 | zone 0 below 70, zone 1 from 70 to 180 inclusive, zone 2 above 180; `ExactlyOneZone` shows each value meets exactly one |
| Glycemia.ExactlyOneZone | glupredkit/metrics/glycemia_detection.py:38-44 | a value satisfies zone condition c exactly when c is its zone: below 70, 70 to 180 inclusive, above 180 |
| Glycemia.RelevantFrom | glupredkit/metrics/glycemia_detection.py:26 | `np.where`: exactly the positions whose true value is in the zone |
| Glycemia.RelevantAscending | glupredkit/metrics/glycemia_detection.py:26 | `np.where` lists each position once and in increasing order, so the relevant list has as many entries as the zone has values |
| Glycemia.CountIn | glupredkit/metrics/glycemia_detection.py:28 | a count never exceeds the number of positions |
| Glycemia.Fraction | glupredkit/metrics/glycemia_detection.py:25-30 | defined exactly when the true zone is non-empty (`nan` otherwise) |
| Glycemia.FractionIsShare | glupredkit/metrics/glycemia_detection.py:25-30 | for a non-empty true zone the fraction lies in [0, 1], and times the true count it gives the predicted count |
| Glycemia.CountsPartition | glupredkit/metrics/glycemia_detection.py:23-31 | the three predicted-zone counts of a true zone add up to its size |
| Glycemia.SharesSumToOne | glupredkit/metrics/glycemia_detection.py:30 | shares of a positive total sum to one |
| Glycemia.ColumnSumsToOne | glupredkit/metrics/glycemia_detection.py:23-31 | for a non-empty true zone, its column of the matrix sums to 1 |
| Glycemia.AgreeingCounts | glupredkit/metrics/glycemia_detection.py:23-35 | when predictions keep their true zone, all of a true zone's positions are counted in that zone and none elsewhere |
| Glycemia.WholeOrNoShare | glupredkit/metrics/glycemia_detection.py:30 | t/t is 1 and 0/t is 0 |
| Glycemia.IdentityWhenZonesAgree | glupredkit/metrics/glycemia_detection.py:23-35 | when every prediction falls in its true value's zone, the matrix is the identity on non-empty zones |
| Glycemia.CoveredWhenAllZonesBelow | glupredkit/metrics/glycemia_detection.py:27 | the fancy index stays in range for all three zones only if there are no more true values than predictions |
| Glycemia.RelevantBelow | glupredkit/metrics/glycemia_detection.py:27 | with no more true values than predictions, every fancy index is in range |
| Glycemia.AllZonesBelowIff | glupredkit/metrics/glycemia_detection.py:26-27 | the fancy index stays in range for all three zones exactly when there are no more true values than predictions |
| Glycemia.RowFractions | glupredkit/metrics/glycemia_detection.py:24-31 | row i holds the three fractions of predicted zone i, true zone by true zone |
| Glycemia.ZoneRow | glupredkit/metrics/glycemia_detection.py:24-31 | the inner loop fails with an index error exactly when some zone's positions run past the predictions, and otherwise yields row i |
| Glycemia.FlatFractionsRows | glupredkit/metrics/glycemia_detection.py:31-35 | the nine appended fractions, reshaped to 3×3, give the three rows in order |
| Glycemia.GlycemiaDetection | glupredkit/metrics/glycemia_detection.py:15-36 | an index error exactly when there are more true values than predictions; otherwise a 3×3 matrix whose [i][j] is the fraction of true-zone-j samples predicted in zone i |
| Hypoglycemia.FilteredIndices | glupredkit/metrics/hypoglycemia_detection.py:18 | exactly the positions whose true value is below 70, in increasing order |
| Hypoglycemia.Pick | glupredkit/metrics/hypoglycemia_detection.py:19-20 | the values at the filtered positions, in order |
| Hypoglycemia.HypoglycemiaDetection | glupredkit/metrics/hypoglycemia_detection.py:14-36 | an index error exactly when some filtered position has no prediction |
| Hypoglycemia.IndexErrorIffMissingPrediction | glupredkit/metrics/hypoglycemia_detection.py:18-20 | an index error exactly when some true value below 70 sits at a position past the end of the predictions |
| Hypoglycemia.ZipCountAppend | glupredkit/metrics/hypoglycemia_detection.py:23-25 | counting pairs over a concatenation adds the counts |
| Hypoglycemia.PickCons | glupredkit/metrics/hypoglycemia_detection.py:19-20 | picking a leading position puts its value first |
| Hypoglycemia.FilteredLength | glupredkit/metrics/hypoglycemia_detection.py:18-28 | the filtered count is the number of true values below 70 |
| Hypoglycemia.FilteredBothCount | glupredkit/metrics/hypoglycemia_detection.py:18-25 | the counted instances are the positions where both values lie below 70 |
| Hypoglycemia.HypoglycemiaFormula | glupredkit/metrics/hypoglycemia_detection.py:23-34 | the result is 100·#(true < 70 ∧ pred < 70)/#(true < 70), or 0 with no hypoglycemic value, and always within [0, 100] |
| Hypoglycemia.BothAtMostHypo | glupredkit/metrics/hypoglycemia_detection.py:23-28 | the hits never exceed the hypoglycemic positions |
| Hypoglycemia.PercentageInRange | glupredkit/metrics/hypoglycemia_detection.py:32 | a part of a whole, as a percentage, lies in [0, 100] |
| Hypoglycemia.NonHypoPredictionsIgnored | glupredkit/metrics/hypoglycemia_detection.py:18-25 | predictions at positions whose true value is at least 70 do not change the result |
| Rmse.Broadcast | src/metrics/rmse.py:9-12 | numpy broadcasting of two 1-D arrays: equal lengths pair up, a length-1 array is repeated, anything else is a shape error |
| Rmse.SquaredDiffs | src/metrics/rmse.py:12 | one squared difference per pair |
| Rmse.MeanSquaredError | src/metrics/rmse.py:9-12 | `np.mean` of the squared differences after broadcasting: a shape error, NaN (`None`) for empty input, or the mean; `RmseIsRootOfMeanSquare` states its properties |
| Rmse.Rmse | src/metrics/rmse.py:8-12 | the root of `MeanSquaredError`, passing errors and NaN through; `RmseIsRootOfMeanSquare`, `RmseZeroOnEqual` and `RmseSymmetric` are its properties |
| Rmse.SumOfSquaresNonNegative | src/metrics/rmse.py:12 | a sum of squares is non-negative |
| Rmse.RmseIsRootOfMeanSquare | src/metrics/rmse.py:8-12 | a shape error exactly when the lengths do not broadcast; otherwise the result is ≥ 0 and its square is the mean squared difference |
| Rmse.EqualInputsHaveNoError | src/metrics/rmse.py:12 | equal sequences have zero squared error |
| Rmse.RmseZeroOnEqual | src/metrics/rmse.py:12 | the RMSE of a non-empty sequence against itself is 0 |
| Rmse.SquaredDiffsSymmetric | src/metrics/rmse.py:12 | squared differences do not depend on the order of the arguments |
| Rmse.RmseSymmetric | src/metrics/rmse.py:12 | swapping true and predicted values gives the same result |
| TidepoolParser.OfType | src/parsers/tidepool_parser.py:70-78 | each list holds only records with its type tag |
| TidepoolParser.OfTypeAppend | src/parsers/tidepool_parser.py:70-78 | the lists keep the input order: partitioning a concatenation concatenates the partitions |
| TidepoolParser.OfTypeStep | src/parsers/tidepool_parser.py:70-78 | appending one record adds it to its own tag's list only |
| TidepoolParser.OfTypeComplete | src/parsers/tidepool_parser.py:71-78 | every record with a tag's type lands in that tag's list |
| TidepoolParser.FirstUntyped | src/parsers/tidepool_parser.py:71 | the first record without a `type` key, if any |
| TidepoolParser.ParseJson | src/parsers/tidepool_parser.py:55-84 | a KeyError exactly when some record lacks `type`, naming the first such record; otherwise the `cbg`, `bolus`, `basal` and `food` lists, in input order |
| TidepoolParser.Partition | src/parsers/tidepool_parser.py:70-84 | the four lists `parse_json` returns when every record has a type, each filtered by its tag in input order; `ParseJson` is proved to return it |
| TidepoolParser.PrefixTyped | src/parsers/tidepool_parser.py:70-71 | a prefix whose records all have a type has no untyped record |
| TidepoolParser.PrefixUntyped | src/parsers/tidepool_parser.py:70-71 | an untyped record after a typed prefix is the first untyped one |
| TidepoolParser.FirstAt | src/parsers/tidepool_parser.py:70-71 | an untyped record preceded only by typed records is the first untyped one |
| TidepoolParser.UnknownTypesDropped | src/parsers/tidepool_parser.py:81-82 | records of any other type appear in no list |
| TidepoolParser.ListLengthsAddUp | src/parsers/tidepool_parser.py:70-84 | the four list lengths sum to the number of records with a recognised type |
| TidepoolParser.Fetch | src/parsers/tidepool_parser.py:10-53 | empty exactly when no data arrives, parsing fails or normalising fails; otherwise the normalised partition |
| ModelConfig.FirstViolation | glupredkit/helpers/model_config_manager.py:70-75 | none exactly when every schema key is present with a value of its type; otherwise the missing-key or wrong-type error of the first failing schema entry, all earlier entries being fine |
| ModelConfig.Violation | glupredkit/helpers/model_config_manager.py:72-75 | one schema entry's error: a missing key is reported before a wrong type; `FirstViolation` and `ValidateConfig` use it |
| ModelConfig.ValidateConfig | glupredkit/helpers/model_config_manager.py:70-75 | the loop raises exactly the first violation, in schema order |
| ModelConfig.ExtraKeysIgnored | glupredkit/helpers/model_config_manager.py:49-75 | keys outside the schema never affect validation |
| ModelConfig.WithCgmFacts | glupredkit/helpers/model_config_manager.py:12-15 | "CGM" ends up in the list, appended once at the end if it was absent and the list unchanged otherwise; applying the rule twice is applying it once |
| ModelConfig.GenerateModelConfiguration | glupredkit/helpers/model_config_manager.py:10-42 | the caller's list gains "CGM" if absent, even when generation fails afterwards; an unknown preprocessor is an error; otherwise the record goes to `data/configurations/<name>.json` |
| ModelConfig.GeneratedConforms | glupredkit/helpers/model_config_manager.py:24-33 | a generated record passes validation exactly when the caller passed lists and integers where the schema wants them |
| ModelConfig.GeneratedConfig | glupredkit/helpers/model_config_manager.py:24-33 | the eight-key record `generate_model_configuration` saves, with `.csv` appended to `data`; `GeneratedConforms` and `GenerateThenLoad` state its properties |
| ModelConfig.ConfigPath | glupredkit/helpers/model_config_manager.py:35-38 | `data/configurations/<name>.json`, the path both generation and loading use (`GenerateThenLoad`) |
| ModelConfig.Load | glupredkit/helpers/model_config_manager.py:46-68 | the file is `data/configurations/<name>.json`; a missing file is an error; a loaded configuration always conforms, and a conforming one always loads |
| ModelConfig.GetData | glupredkit/helpers/model_config_manager.py:77-78 | the stored `data` value, a string in a validated configuration |
| ModelConfig.GetSubjectIds | glupredkit/helpers/model_config_manager.py:80-81 | the stored `subject_ids` value, a list in a validated configuration |
| ModelConfig.GetPreprocessor | glupredkit/helpers/model_config_manager.py:83-84 | the stored `preprocessor` value, a string in a validated configuration |
| ModelConfig.GetPredictionHorizon | glupredkit/helpers/model_config_manager.py:86-87 | the stored `prediction_horizon` value, an int or bool in a validated configuration |
| ModelConfig.GetNumLaggedFeatures | glupredkit/helpers/model_config_manager.py:89-90 | the stored `num_lagged_features` value, an int or bool in a validated configuration |
| ModelConfig.GetNumFeatures | glupredkit/helpers/model_config_manager.py:92-93 | the stored `num_features` value, a list in a validated configuration |
| ModelConfig.GetCatFeatures | glupredkit/helpers/model_config_manager.py:95-96 | the stored `cat_features` value, a list in a validated configuration |
| ModelConfig.GetWhatIfFeatures | glupredkit/helpers/model_config_manager.py:98-99 | the stored `what_if_features` value, a list in a validated configuration |
| ModelConfig.GenerateThenLoad | glupredkit/helpers/model_config_manager.py:10-99 | loading a generated record by the same name gives back every field: `data` with ".csv" appended, all the others unchanged |
| ModelConfig.FeatureList.constructor | glupredkit/helpers/model_config_manager.py:10-11 | the caller's feature list holds the given items |
| UnitConfig.UseMgdlOf | glupredkit/config_manager.py:13 | the stored flag, or true when the key is absent |
| UnitConfig.ConvertOf | glupredkit/config_manager.py:22-25 | the identity when the flag is truthy; otherwise the result times 18.018 is the input |
| UnitConfig.SetThenRead | glupredkit/config_manager.py:15-17 | after setting the flag it reads back as the value set, conversion follows it, and no other key changes |
| UnitConfig.DefaultIsMgdl | glupredkit/config_manager.py:13 | without the key, values pass through unconverted |
| UnitConfig.ConfigManager.constructor | glupredkit/config_manager.py:6-9 | the settings are the loaded dictionary |
| UnitConfig.ConfigManager.UseMgdl | glupredkit/config_manager.py:11-13 | the `use_mgdl` property of the current settings |
| UnitConfig.ConfigManager.SetUseMgdl | glupredkit/config_manager.py:15-17 | only the `use_mgdl` key changes, and it reads back as the value set |
| UnitConfig.ConfigManager.ConvertValue | glupredkit/config_manager.py:22-25 | the identity in mg/dL; otherwise the result times 18.018 is the input |

## Left out

- The physiology simulator (`pyloopkit.update`, glupredkit/models/loop.py:140) is the parameter `simulate`. The `DoseType` enumeration is reduced to the three values used.
- The convex problem and its solve (cvxpy, glupredkit/models/ridge_multioutput_constrained.py:33-41, 73-74) are the parameter `solve`. Optimality is not modelled, only that the solver meets the constraints.
- `RidgeModel.Model.Fit` and `RidgeModel.Solutions` require that every solve returns a full coefficient vector. In the code, `problem.solve()` (glupredkit/models/ridge_multioutput_constrained.py:73-74) can raise a `SolverError`, which aborts `fit`. A solve that ends without an optimal status leaves `beta.value` as `None`, and line 77 then stores a column of NaN. Neither path is modelled. The problem itself is always feasible, because β = 0 meets every sign constraint.
- The commented-out weighting and amplification blocks of the ridge model are not modelled.
- `print_coefficients`, `best_params` and `process_data` are not modelled.
- pandas' per-day grouping (glupredkit/models/loop.py:28) is the parameter `dailySums`.
- `LoopModel.Model.Fit`: adding the `insulin` column to the caller's frame in place (loop.py:22) is not modelled. The value bolus + basal/12 is computed per row by `LoopModel.Insulin`.
- `LoopModel.Model.Predict`: requires the ids recorded by `fit` to be distinct. That is the only state `Fit` produces, and `Valid()` records it.
- `LoopModel.Model.Predict` keeps the corrected horizon check (see Findings), not the code's.
- `LoopModel.RowTrajectories`, `LoopModel.SubjectsFrom`, `LoopModel.PredictSpec`, `LoopModel.PredictSubject`, `LoopModel.PredictSubjects`, `LoopModel.RowTrajectoriesShape`, `LoopModel.SubjectsFromShape` and `LoopModel.PredictShape` are all built on `LoopModel.Trajectory`, the corrected horizon check (see Findings). The code at glupredkit/models/loop.py:71-76 keeps an output of exactly `prediction_index` values and trims it to `prediction_index - 1`; these members skip such a row. `LoopModel.TrajectoryAsWritten` and `LoopModel.AsWrittenTrajectoryIsShort` model the code's check.
- `LoopAlignment.GetInsulinData`, `LoopAlignment.InsulinRecords`, `LoopAlignment.PredictionInput` and `LoopAlignment.GetPredictionOutput` build the basal records with the corrected kind `TempBasal` (`BasalDoses`). The code at glupredkit/models/loop.py:172 gives them the scheduled kind *basal*, which `BasalDosesAsWritten` models (see Findings). So the simulator input differs from the code's in the kind of every basal record, and in nothing else.
- `LoopAlignment.InsulinRecordsShape` and `LoopAlignment.MergedDoseShape` state the corrected `TempBasal` kind for basal records (through `WellFormedDose`), not the *basal* kind the code at glupredkit/models/loop.py:172 assigns. `LoopAlignment.AsWrittenBasalRecordsAreScheduled` states the code's kind.
- `PyStrings.ParseInt` rejects labels that Python's `int()` accepts: surrounding whitespace (`" 5"`, `"5\n"`) and non-ASCII decimal digits. `EntryDate` then reports an error where the code dates the cell. Column labels built by the preprocessing have none of these.
- Dates are integer minutes, not `datetime`/`Timedelta` values, and `time_to_calculate` is an `Option`. A falsy datetime cannot occur.
- `RidgeModel.Model.Predict` requires a rectangular test frame, which every DataFrame is.
- All file, JSON and network I/O is not modelled: `open`, `json.load`, `json.dump`, the directory creation, `TidepoolAPI` login and fetch, and `pkg_resources`. The file system is a map from paths to decoded JSON objects. A file that is not valid JSON is not modelled.
- `json_normalize` and the column selection and renaming of the Tidepool frames (src/parsers/tidepool_parser.py:14-49) are the parameter `normalise` of `TidepoolParser.Fetch`.
- `ModelConfig.GenerateModelConfiguration`: the dynamic `__import__` of the preprocessor module (glupredkit/helpers/model_config_manager.py:17-22) is the boolean parameter `preprocessorFound`.
- `UnitConfig.ConfigManager.SetUseMgdl` does not model persisting the settings to `config.json`.
- Floating point is modelled as exact reals. A NaN or infinity result (0/0, a division by a zero daily insulin, the mean of an empty array) is `None`. `sqrt` is abstract.
- `print` output, `warnings.warn` (the CGM warning) and the progress messages are not modelled.
- glupredkit/plots/error_grid_plot.py, glupredkit/metrics/parkes_exp.py and glupredkit/metrics/parkes_error_grid.py wrap external plotting and zoning libraries. They are not part of this model.

## Findings

| source | as written | input that shows it | evidently intended | confidence | as-written member | corrected member |
|---|---|---|---|---|---|---|
| glupredkit/models/loop.py:172 | `get_dose_type("tempbasal")` takes the else branch, because the function tests for `"temp"`, so basal records get type *basal* | any row with a `basal` cell | temporary basal records, as the comment above the line says | not executed | LoopAlignment.AsWrittenBasalRecordsAreScheduled | LoopAlignment.InsulinRecordsShape |
| glupredkit/models/loop.py:71-76 | a row is skipped only when the output has fewer than `prediction_index` values, but the trajectory starts at element 1 | horizon 30 (`prediction_index` 6) and a simulator output of 6 values: the row yields 5 predictions | skip unless at least `prediction_index + 1` values exist, so every trajectory has `prediction_index` values | not executed | LoopModel.AsWrittenTrajectoryIsShort | LoopModel.TrajectoryHasHorizonLength |
