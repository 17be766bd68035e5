# A verified model of the causal-inference experiment harness

The repository simulates A/B experiments and compares four estimators of the
treatment effect. These are a t-test, difference-in-differences,
autoregression (the baseline as a regressor) and CUPED. Each can be run with
or without a covariate.

- `src/simulate.py` generates one experiment as a table. It has a baseline,
  an optional covariate, a treatment assignment (optionally biased by the
  covariate), an outcome and its change from the baseline.
- `src/evaluate.py` builds each estimator's regression formula, fits it and
  reads off the `is_treatment` coefficient. It also evaluates a batch of
  experiments against a list of method configurations.
- The top-level `evaluate.py` cuts each scenario's experiment ids into
  batches, one per pool task, and merges the batches' result rows.

The model has five modules:

- `Frames` (`frames.dfy`): data frames as a row count plus named real
  columns, the record an OLS fit exposes, the errors as values, and sums
  and means.
- `Estimators` (`estimators.dfy`):
  - `build_formula`;
  - the formulas as structured regression specifications;
  - the four estimators, with the fit as a function parameter (`Fitter`);
  - `extract_treatment_results`;
  - the CUPED adjustment.
- `Harness` (`harness.dfy`): `evaluate_experiments_batch` as a method with
  two nested loops, proved against the specification function `BatchRows`.
  Lemmas give the row count, order, naming, skipping and tagging.
- `Simulation` (`simulation.dfy`): `simulate_experiment` as a function of
  the flags, the parameters and the random draws. Its contract is the
  predicate `Simulated`, which states the causal model row by row. Lemmas
  relate runs that differ in one input.
- `Scenario` (`scenario.dfy`): the worker count, the batch size and the
  batch loop of `run_scenario`, the experiment count of a scenario, and the
  merge of the batches' results in any completion order.

## Model

| member | source | states |
|---|---|---|
| Estimators.BuildFormula | src/evaluate.py:5-12 | the formula is the base followed by exactly `" + covariate"` when the flag is set, and by nothing otherwise |
| Estimators.BuildFormulaRenders | src/evaluate.py:5-12 | appending the covariate suffix to a rendered formula is rendering the specification with `covariate` as one more predictor |
| Estimators.JoinAppend | src/evaluate.py:11 | joining one more term adds `" + "` and the term to the joined predictors |
| Estimators.BaseFormulaRenders | src/evaluate.py:35-62 | each estimator's literal base formula is the rendering of its structured specification: outcome `post_experiment` or `change`, predictors as listed |
| Estimators.Estimator.Formula | src/evaluate.py:35-62 | the formula each estimator fits is its base specification, plus the `covariate` predictor exactly when the flag is passed |
| Estimators.EstimatorFormulas | src/evaluate.py:31-68 | `covariate` is a predictor iff requested; `is_treatment` is a predictor for every estimator except CUPED's first stage; the target is `change` for difference-in-differences and `post_experiment` otherwise; CUPED's second stage is `post_experiment_cuped ~ is_treatment` |
| Estimators.ExtractTreatmentResults | src/evaluate.py:15-28 | succeeds iff the fit has an `is_treatment` term; then reports its p-value, estimate and the first and second ends of its interval; otherwise a missing-key error for `is_treatment` |
| Estimators.CupedValuesMean | src/evaluate.py:64 | the adjusted outcome has mean equal to the mean residual plus the outcome mean, so it keeps the outcome mean when the residuals sum to zero |
| Frames.MeanShifted | src/evaluate.py:64 | adding a constant to every entry adds it to the mean |
| Frames.SumShifted | src/evaluate.py:64 | adding a constant to n entries adds n times it to the sum |
| Frames.Frame.Assign | src/evaluate.py:67 | `assign` adds or replaces one column, keeps the other columns and the row count, and keeps the frame rectangular |
| Estimators.Estimate | src/evaluate.py:31-70 | a non-CUPED estimator succeeds iff the fit of its formula succeeds and has an `is_treatment` term, and then reports that term; a failing fit's error is the result, and a fit without the term gives the missing-key error. CUPED succeeds iff both fits, the adjustment and the term lookup succeed (`CupedStagesOk`), and then reports the second-stage fit on the frame extended with `post_experiment_cuped` |
| Estimators.CupedValues | src/evaluate.py:64 | one adjusted value per residual, each the residual plus the outcome mean |
| Estimators.CupedFrame | src/evaluate.py:64-67 | fails with a missing-column error without `post_experiment`, with the empty-column error on an empty frame, and with a length error when the residuals do not match the rows, in that order; otherwise succeeds, keeps the rows and every other column, and adds `post_experiment_cuped` with row i equal to residual i plus the outcome mean |
| Estimators.CupedEstimate | src/evaluate.py:58-70 | succeeds iff stage 1 fits, the adjustment succeeds, stage 2 fits and has an `is_treatment` term; then reports the stage-2 term. Otherwise the error is that of the first failing stage, or the missing-key error |
| Harness.MethodName | src/evaluate.py:89-91 | the name is the estimator's name followed by `_covariate` exactly when the covariate flag is set |
| Harness.ExperimentRows | src/evaluate.py:83-101 | an experiment gives at most one row per method, each tagged with that experiment's number |
| Harness.BatchRows | src/evaluate.py:77-103 | a batch gives at most one row per listed experiment number and method |
| Harness.MethodNameRoundTrip | src/evaluate.py:89-91 | the method name reads back to its configuration: the estimator's name, with `_covariate` appended iff the covariate flag is set |
| Harness.MethodNameInjective | src/evaluate.py:89-91 | two configurations have the same method name iff they are the same configuration |
| Harness.ConfigRow | src/evaluate.py:86-101 | one method on one experiment gives nothing iff the method requests a covariate the data lacks; otherwise it gives the estimate tagged with the experiment number, the method name and the first-row true effect, or the estimator's error |
| Harness.EvaluateExperimentsBatch | src/evaluate.py:73-103 | the nested loop computes `BatchRows`: experiments in input order, methods in configuration order; absent experiments and skipped methods add nothing; the first estimator error ends the batch |
| Harness.EvaluateExperiment | src/evaluate.py:83-101 | the inner loop computes the rows of one experiment, methods in configuration order |
| Harness.ExperimentRowsErr | src/evaluate.py:97 | an error on a prefix of the method list is the error of the whole experiment (an exception propagates) |
| Harness.BatchRowsErr | src/evaluate.py:79-101 | an error on a prefix of the experiment numbers is the error of the whole batch |
| Harness.ExperimentRowsTagged | src/evaluate.py:85-101 | every row of one experiment comes from a listed method that was not skipped, and carries that method's tags and result |
| Harness.BatchRowsTagged | src/evaluate.py:97-101 | every row's experiment number is one of the listed numbers present in the data; its method is a listed, non-skipped configuration; the row is that estimator's result on that experiment's data, tagged with the loop's number, the constructed name and the first-row true effect |
| Harness.Present | src/evaluate.py:79-81 | the experiment numbers kept are exactly those listed and present in the data |
| Harness.BatchRowsAbsent | src/evaluate.py:79-81 | absent experiment numbers contribute no rows and raise no error: the batch equals the batch over the present numbers only |
| Harness.WithoutCovariateMethods | src/evaluate.py:93-95 | the configurations kept are exactly those that do not request the covariate |
| Harness.ExperimentRowsWithoutCovariate | src/evaluate.py:93-95 | on data without a `covariate` column, an experiment's rows are those of the covariate-free methods alone |
| Harness.BatchRowsWithoutCovariate | src/evaluate.py:93-95 | on data without a `covariate` column, covariate-requesting methods contribute no rows and raise no error anywhere in the batch |
| Harness.ExperimentRowsComplete | src/evaluate.py:85-101 | with no method skipped or failing, an experiment gives one row per method, the j-th row from the j-th method |
| Harness.BatchRowsComplete | src/evaluate.py:77-103 | with k present experiments and m methods, none skipped or failing, the batch has exactly k·m rows; row i·m + j is experiment i with method j (experiment-major, method-minor) |
| Harness.BatchRowsAppend | src/evaluate.py:77-103 | evaluating two lists of experiment numbers one after the other equals evaluating their concatenation |
| Harness.AppendRowsAssociative | src/evaluate.py:101 | extending result lists is associative, with the first error winning |
| Simulation.SimulateExperiment | src/simulate.py:5-77 | fails iff selection bias is requested without a covariate (the selection-bias error) or the target standard deviation is negative (numpy's negative-scale error for `target_std`), in that order. Otherwise the table is `Simulated`: n rows; baseline `mean + std·z`; covariate `min + (max − min)·v`, present iff requested; treatment 1 iff the uniform draw exceeds 0.5 plus covariate·bias (bias only under selection bias), else 0; post `pre + effect·treatment + covariate·covariate_effect + std·z'` (no covariate term without a covariate); change = post − pre; true_effect broadcast |
| Simulation.Generate | src/simulate.py:27-75 | the generated table has n rows in every column and a covariate column iff requested |
| Simulation.GenerateSimulated | src/simulate.py:27-75 | the vectorised computation meets the row-by-row causal model |
| Simulation.GenerateAssignment | src/simulate.py:36-54 | assignment is the 0/1 threshold rule on the uniform draws against 0.5 plus the selection impact |
| Simulation.GenerateOutcome | src/simulate.py:36-61 | the post value is drawn around baseline + effect·treatment + covariate·covariate_effect |
| Simulation.GenerateDerived | src/simulate.py:64-70 | `change` is post − pre and `true_effect` is the configured effect on every row |
| Simulation.PreColumn | src/simulate.py:33 | n baseline values, row i equal to mean + std times the i-th standard normal draw |
| Simulation.CovariateColumn | src/simulate.py:40-46 | n covariate values: row i is min + (max − min) times the i-th unit draw when a covariate is simulated, and the scalar 0 broadcast otherwise |
| Simulation.PostColumn | src/simulate.py:57-61 | n outcome values, row i equal to the baseline + effect·treatment + covariate·covariate_effect + std times the i-th outcome draw |
| Simulation.Difference | src/simulate.py:67 | row i of `change` is post minus pre of row i |
| Simulation.GenerateBaseline | src/simulate.py:33 | the baseline is the configured normal around the target mean |
| Simulation.GenerateCovariate | src/simulate.py:40-46 | a simulated covariate is uniform over the configured range |
| Simulation.Assignment | src/simulate.py:54 | each treatment value is 0 or 1, and 1 iff the uniform draw exceeds 0.5 plus that row's selection impact |
| Simulation.SelectionImpact | src/simulate.py:36-52 | the selection impact is covariate·bias when both a covariate and selection bias are configured, and 0 on every row otherwise |
| Simulation.SimulatedUnique | src/simulate.py:19-77 | the configuration and the draws determine the table: the same seed gives the same experiment |
| Simulation.AssignmentIgnoresCovariateWithoutBias | src/simulate.py:48-54 | without selection bias the treatment column depends on the uniform draws alone, whatever the covariate |
| Simulation.ChangeIgnoresBaseline | src/simulate.py:33-67 | the baseline mean and the baseline draws cancel out of `change`, and do not affect assignment or the covariate |
| Simulation.TreatmentEffectAdditive | src/simulate.py:54-61 | changing the true effect leaves the baseline, the covariate and the assignment unchanged. It moves each treated outcome by exactly the difference and each control outcome not at all |
| Simulation.InertCovariate | src/simulate.py:36-61 | a covariate with zero effect and no selection bias leaves baseline, treatment, outcome and change as in a run without a covariate on the same standard draws (not the same seed: the covariate draws shift numpy's stream) |
| Simulation.ToFrame | src/simulate.py:63-75 | the data frame has n rows and exactly the five base columns, plus `covariate` iff simulated; `pre_experiment`, `post_experiment`, `change`, `true_effect` and `covariate` hold the table's values and `is_treatment` carries the 0/1 values |
| Simulation.ToFrameInjective | src/simulate.py:64-75 | two tables of n rows with the same data frame are the same table: the frame loses nothing |
| Scenario.MaxWorkers | evaluate.py:109 | at least one worker, and one fewer than the CPU count whenever that leaves at least one |
| Scenario.BatchSize | evaluate.py:119 | the batch size is at least 1, and equals experiments // (workers·4) whenever that quotient is at least 1 |
| Scenario.BatchesPerWorker | evaluate.py:119-125 | the batch size yields fewer than eight batches per worker, and at least four per worker when there are at least 4·workers experiments |
| Scenario.MakeBatches | evaluate.py:122-125 | the batches concatenate to exactly `0 .. experiments − 1`. There are ceil(experiments / batch_size) of them, none when experiments ≤ 0. Batch j is `j·size .. min((j+1)·size, experiments) − 1`. Every batch is non-empty and at most batch_size long, and all but the last are exactly batch_size |
| Scenario.Range | evaluate.py:124 | `range(lo, hi)` has max(hi − lo, 0) elements, the k-th being lo + k |
| Scenario.BatchCount | evaluate.py:123 | there are no batches iff there are no experiments |
| Scenario.RangeExactlyOnce | evaluate.py:124 | `range(lo, hi)` holds every integer in [lo, hi) exactly once and nothing else |
| Scenario.RangeAppend | evaluate.py:123-124 | consecutive ranges concatenate to the range spanning both |
| Scenario.CeilDiv | evaluate.py:123 | the batch count is the least number of batches that covers all the ids |
| Scenario.CeilDivBounds | evaluate.py:123 | the batch count covers all the ids, and one batch fewer does not |
| Scenario.ExperimentCount | evaluate.py:48 | the experiment count exceeds every experiment number and is one more than one of them (the maximum); there is none for an empty column |
| Scenario.ExperimentCountCovers | evaluate.py:48 | every non-negative experiment number lies in `range(count)`, so the scenario's ids cover every experiment in the data |
| Scenario.Collected | evaluate.py:137-139 | merging completed batches succeeds iff every batch in the completion order evaluates successfully |
| Scenario.CollectedErr | evaluate.py:137-139 | once a completed batch has failed, the scenario's error is that failure |
| Scenario.CollectedConcat | evaluate.py:137-139 | collecting two runs of batches one after the other is collecting their concatenation |
| Scenario.CollectedPermutation | evaluate.py:137-139 | any two completion orders of the same batches both succeed or both fail, and on success give the same multiset of rows |
| Scenario.CollectedInOrder | evaluate.py:122-139 | collecting the first k batches in batch order is evaluating their ids as a single batch |
| Scenario.CollectedScenario | evaluate.py:118-139 | for batches cutting `0 .. experiments − 1`, collecting them in any completion order matches one batch over all ids: the same success and the same rows. In batch order the result is exactly the same |
| Scenario.RunScenario | evaluate.py:112-139 | a scenario run, in any completion order of its batches, fails iff evaluating all ids as one batch fails; otherwise it has the same multiset of rows. In batch order it reports exactly those rows, in the same order |
| Scenario.RunConfiguredScenario | evaluate.py:48-139 | with the worker count from `max_workers`, the batch size and batch count from the experiment count of the data, any completion order of the batches gives the rows of one batch over `0 .. count − 1` (as a multiset); an empty experiment-number column is an error |

## Left out

- The OLS fit (formula parsing, coefficients, p-values, confidence intervals) is the function parameter `Fitter`. Its numerics, and the residuals summing to zero, are not modelled; `Estimators.CupedValuesMean` takes the zero sum as a hypothesis.
- Floating point: every quantity is a mathematical real. Rounding, NaN and infinities are not modelled.
- numpy's random generator and `np.random.seed` are not modelled. The standard normal and uniform draws are inputs (`Draws`), and numpy's `normal(loc, scale)` and `uniform(low, high)` are written as `loc + scale·z` and `low + (high − low)·v`.
- Simulation.SimulateExperiment: the `params` dictionary is the record `Params`, so a missing key (a `KeyError` in the source) cannot occur in the model.
- Estimators.CupedFrame: pandas aligns the residual series with the frame by index. The model pairs them by position and reports a length mismatch as an error. The mean of an empty outcome column (NaN in numpy) is an error too.
- Harness.EvaluateExperimentsBatch: the groups of `groupby` are a map from experiment number to a non-empty frame, and the `true_effect` lookup on the first row is modelled (a missing column is an error). Integer columns are held as whole reals in frames.
- Scenario.RunScenario: the process pool is not modelled. Batches are evaluated one after another, and the nondeterministic order of `as_completed` is the parameter `completion`, a permutation of the batch indices. When several batches fail, which error is reported depends on that order; the model reports the first failure in that order.
- Scenario.ExperimentCount: the column is a sequence of integers. For an empty column pandas yields NaN and `range` then fails; the model returns no count, and `Scenario.RunConfiguredScenario` reports the empty-column error for `experiment_number`.
- Simulation.SimulateExperiment: numpy's `uniform(low, high)` does not check `low <= high`, and neither does the model. A negative `n` cannot occur, since `n` is a natural number.
- The scenario list of `evaluate.py`, the parquet reads and writes, directory creation, logging and progress bars are I/O and configuration, and are not part of this model.
- The top-level `simulate.py` loop is not part of this model: it seeds each experiment by its number, tags the rows and writes them out.
- `plot.py` (plotting) is not part of this model.
- The tests `tests/test_evaluate.py` and `tests/test_evaluate_helpers.py` are not part of this model. Their assertions are statistical tolerances or agreement with the regression library.
