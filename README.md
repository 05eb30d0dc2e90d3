# Causal plotting on a data frame, modelled in Dafny

This project models the causal-effect pipeline of `CausalDataFrame` from the
`causality` package (`causality/analysis/dataframe.py`). That pipeline is:

- **`zplot`.** It routes a plotting call on whether the confounder mapping
  `z` is given, the `kind` option and `bootstrap_samples`.
- **`_get_model`.** It selects a regression backend by first-match
  precedence: `model`, then `fit_model`, then `model_type == 'kernel'`, then
  a default random forest. A model class, the kernel wrapper and the
  forest are fit on `[treatment] + confounders`; a `fit_model` instance is
  used as given, unfit. It also reports which option key won.
- **`KernelModelWrapper`.** This object adapts a local-linear kernel
  estimator to fit/predict. It records the shapes of the last fit and
  refuses to predict on any other shape.
- **The "what-if" averaging loops of `_line_zplot` and `_mean_zplot`.** For
  each treatment value, they copy the frame, overwrite the treatment column,
  predict, and average the predictions over all rows.
- **The bootstrap of `_bootstrapped_mean_zplot` and `_bootstrap_statistic`.**
  For each distinct treatment value, it takes `bootstrap_samples`
  same-size resamples with replacement and one averaged prediction per
  resample. From those draws it builds the mean and the distances to the
  2.5th and 97.5th percentiles.

Modules:

* `Values`: the keyword options as a map from names to Python values, and
  Python truthiness. It also holds the ordered tag dict `z` (an association
  list with distinct keys, in the dict's iteration order), the option lookups
  the code performs, and the exceptions it can end with (`Error`).
* `Frames`: the parts of the tabular library the code uses, written out as
  functions. These are a rectangular frame of numeric rows, `df[cols]` and
  `df[name]`, the overwrite `df[name] = v`, resampling, the NaN-aware mean
  and `Series.unique()`.
* `Kernel`: the kernel estimator's constructor arguments, the type string
  `fit` builds, and the class `KernelModelWrapper` with its four fields.
* `Selection`: the `_get_model` precedence (`Choose`), the fitted model it
  yields (`ModelSpec`), and a fitted model seen as a prediction function.
* `Effects`: the marginal average at one treatment value and the loop that
  stops at the first failure (`Collect`). It also holds the sweep over
  treatment values, the inner `f` and `_bootstrap_statistic`, and the
  summary of the draws.
* `Zplot`: the route, and each path of `zplot` as a function from the frame
  and the options to what is handed to the plotting library. It also holds
  the lemmas about the points and the forwarded options.
* `CausalFrame`: the class `CausalDataFrame`. Its methods are imperative and
  follow the code step by step. This covers the copy of the frame, the
  in-place column overwrite, the loops, the fitting of a fresh
  `KernelModelWrapper`, and the mutation of `kwargs['xi']` across the
  bootstrap loop. Each method is proved to equal the function of `Zplot`,
  `Effects` or `Selection` that specifies it.

Behaviours of the code a caller may not expect:

* **The draws re-select their model.** The inner `f` calls `_get_model`
  again, on options whose winning key was already deleted. So a model class
  given as `model` is never used by the draws. They fall to the default
  forest (`DrawsIgnoreModelClass`), or to `fit_model` or the kernel when
  those were also given (`ReselectionAfterStrip`).
* **Only the winning model key is stripped.** Other model-selection keys
  are forwarded to the plotting call, for instance a `model_type` other than
  'kernel' (`OtherModelTypeKept`).
* **The two error-bar deltas are not each guaranteed non-negative.** Only
  their sum is, and only for a monotone quantile (`IntervalWidth`).
* **The bootstrapped path can fail on the final `del kwargs['xi']`.** This
  happens when the treatment column has no values and the caller passed no
  `xi` of its own (`BootstrappedMeanWithoutValuesFails`). With the default
  forest the code never gets that far on an empty frame, since sklearn's
  fit raises on zero rows; with `fit_model`, or a caller's class that
  accepts zero rows, it does. The model's fits never fail (see the
  `Selection.Backends` line under "Left out").

The collaborators are parameters:

* the model classes, fitted instances and the random forest (`Backends`);
* the kernel estimator's numerics (`Estimate`);
* the percentile function (`Quantile`);
* the random resampler (`Sampler`, which gives the row drawn at each
  position of each resample);
* the grid of the line path.

A NaN mean (no rows, or no numeric draws) is `None`.

## Model

| member | source | states |
|---|---|---|
| Values.Truthy | causality/analysis/dataframe.py:9 | Python truthiness of an option value, the test of lines 9, 15, 26, 115 and 119; what each test decides is stated by Zplot.RouteOf and Selection.Choose |
| Values.Strip | causality/analysis/dataframe.py:26-27 | `if arg_key: del kwargs[arg_key]` removes exactly that key and keeps every other option with its value |
| Values.ColumnName | causality/analysis/dataframe.py:29 | `kwargs.get('x')` names a column exactly when it is a string present in the options; anything else fails the lookup |
| Values.Confounders | causality/analysis/dataframe.py:31 | `kwargs.get('z', {})` is a dict exactly when `z` is absent (the empty dict) or given as a dict, and then it is that dict |
| Values.TreatmentValue | causality/analysis/dataframe.py:74 | `kwargs['xi']` is a KeyError when `xi` is absent, succeeds exactly when it is a real (the loop only sets reals), and is then that value |
| Values.DrawCount | causality/analysis/dataframe.py:103 | `range(kwargs.get('bootstrap_samples'))` runs max(n, 0) times for an int n, once for `True` and never for `False` (a bool is an int), and fails when the option is absent or of another type |
| Values.Lookup | causality/analysis/dataframe.py:143 | `variable_types[col]` finds a tag exactly when the key is in the dict, and then it is that key's entry |
| Values.Assign | causality/analysis/dataframe.py:113 | `variable_types[treatment] = 'c'` keeps the keys in order and appends the treatment when it is new |
| Values.AssignLookup | causality/analysis/dataframe.py:113 | after the assignment the treatment's tag is 'c' and every other key's tag is unchanged |
| Values.AssignKeepsKeysDistinct | causality/analysis/dataframe.py:111-113 | the copied and assigned `variable_types` is still a dict, with no key twice |
| Frames.Select | causality/analysis/dataframe.py:38 | `df[[treatment] + confounders]` fails with a missing name exactly when some name is not a column; otherwise it gives one row per frame row, holding the named columns in the given order |
| Frames.Column | causality/analysis/dataframe.py:50 | `self[name]` is a KeyError for a missing column; otherwise it gives the column's values in row order |
| Frames.Overwrite | causality/analysis/dataframe.py:37 | `df[treatment] = xi` sets the column in every row, adding it when it is new, and changes nothing else |
| Frames.Resample | causality/analysis/dataframe.py:104 | `df.sample(n=len(df), replace=True)` keeps the columns and has n rows, each a row of `df` chosen by the resampler |
| Frames.Mean | causality/analysis/dataframe.py:39 | the column mean is NaN exactly for no rows; otherwise it times the row count is the sum |
| Frames.Unique | causality/analysis/dataframe.py:50 | `.unique()` holds exactly the values of the column, each once |
| Frames.UniqueInFirstOccurrenceOrder | causality/analysis/dataframe.py:50 | `.unique()` lists the values in the order of their first occurrences in the column |
| Kernel.Repeat | causality/analysis/dataframe.py:146 | `'c' * X.shape[1]` has one 'c' per column |
| Kernel.JoinTags | causality/analysis/dataframe.py:143 | the join over `X.columns` succeeds exactly when every column has a tag, and otherwise fails with a KeyError on a column that has none |
| Kernel.TypeString | causality/analysis/dataframe.py:142-146 | the kernel fit's type string exists exactly when no types are given or every column has one, and otherwise fails with a KeyError on an untagged column; its characters are given by DefaultTypeString and JoinOneCharTags |
| Kernel.JoinOneCharTags | causality/analysis/dataframe.py:143 | with one-character tags the joined string has one character per column, in column order, that column's tag |
| Kernel.DefaultTypeString | causality/analysis/dataframe.py:145-146 | without types the estimator treats every column as continuous |
| Kernel.AssignedTagAt | causality/analysis/dataframe.py:113 | after the assignment each confounder's tag is its own, or 'c' when it is the treatment |
| Kernel.AssignedTagsOneChar | causality/analysis/dataframe.py:111-113 | every column passed to the kernel fit has a one-character tag when every tag of `z` has one |
| Kernel.KernelTypeStringPerColumn | causality/analysis/dataframe.py:111-113 | with one-character tags, the type string `_get_model` makes the kernel fit build has 'c' for the treatment first, then one character per confounder in `z`'s order: its own tag, or 'c' when it names the treatment |
| Kernel.KernelTypeStringJoined | causality/analysis/dataframe.py:111-113 | for tags of any length, that type string is 'c' followed by the tags of `z` joined in `z`'s order, 'c' for a confounder that names the treatment |
| Kernel.KernelModelWrapper.constructor | causality/analysis/dataframe.py:133-137 | a new wrapper has no estimator, no types and no recorded shapes |
| Kernel.KernelModelWrapper.Fit | causality/analysis/dataframe.py:139-147 | `fit` records both shapes first; it then builds the local-linear estimator on the joined type string (all 'c' without types), or fails on a missing tag with the estimator unchanged; it never stores the types |
| Kernel.KernelModelWrapper.Predict | causality/analysis/dataframe.py:149-152 | `predict` succeeds exactly when the matrix has the shape of the last fit and an estimator exists; a different shape, and any call before a fit, raises the shape error |
| Selection.Choose | causality/analysis/dataframe.py:115-130 | the winning key is `model` exactly when that option is truthy, then `fit_model`, then `model_type` exactly when it equals 'kernel', otherwise none; a winning key is always present in the options |
| Selection.OtherModelTypeKept | causality/analysis/dataframe.py:122-130 | a `model_type` other than 'kernel' never wins, so it is never stripped and reaches the plotting call |
| Selection.ReselectionAfterStrip | causality/analysis/dataframe.py:71 | selecting again after deleting the winning key (line 79-80) yields the next backend in line, never the one that won, and the default forest once no selecting key is left |
| Selection.Prediction | causality/analysis/dataframe.py:149-152 | a kernel model predicts only on the fitted shape and otherwise reports both shapes; on that shape it gives the estimator's fit at `X` (`self.model.fit(X)[0]`); any other model's `predict` is applied to the matrix; a `fit_model` without `predict` fails |
| Selection.Training | causality/analysis/dataframe.py:118 | the training data exists exactly when `x` and `y` are string options naming columns and every confounder is a column; it is then the selection `self[[treatment] + confounders]` (columns in that order, one row per frame row) and the outcome column `self[outcome]` |
| Selection.ModelSpec | causality/analysis/dataframe.py:108-130 | the key `_get_model` reports is the one `Choose` picks, and `z` is a dict whenever it succeeds; a `model` class is called and fit on the training data; a `fit_model` is used as given without reading the frame (no `predict` makes every later prediction fail); the default is a forest fit on the training data; the kernel path yields a fitted estimator whose recorded shape is (rows, 1 + number of confounders); when it succeeds is stated by ModelSpecSucceeds, the kernel estimator's data by KernelEstimatorData |
| Selection.ModelSpecSucceeds | causality/analysis/dataframe.py:111-128 | `_get_model` fails with a non-dict `z`; otherwise a `fit_model` always succeeds, a `model` that is not a class fails, and every other backend succeeds exactly when the training columns can be looked up |
| Selection.KernelEstimatorData | causality/analysis/dataframe.py:122-125 | the kernel estimator is `KernelReg(self[outcome], self[[treatment] + confounders], types, 'll')`, whose types are those of `z` with 'c' for the treatment, joined over the training columns |
| Selection.KernelFitIsTyped | causality/analysis/dataframe.py:113 | every column `_get_model` hands to the kernel fit has a tag, so that fit cannot fail on a missing one |
| Selection.KernelSelectionTypeString | causality/analysis/dataframe.py:122-125 | with one-character tags, the kernel estimator `_get_model` builds has 'c' for the treatment, then each confounder's tag ('c' when it names the treatment), one character per column |
| Selection.KernelSelectionTags | causality/analysis/dataframe.py:111-125 | for tags of any length, the kernel estimator's type string is 'c' followed by the tags of `z` joined in order, 'c' for a confounder that names the treatment (the library's refusal of strings that are not one 'c', 'o' or 'u' per column is not modelled; see "Left out") |
| Selection.PredictWith | causality/analysis/dataframe.py:38 | calling `predict` on a selected model, value or wrapper object, gives what its value view predicts |
| Effects.MarginalMean | causality/analysis/dataframe.py:56-59 | one average is NaN exactly when the frame has no rows; when it exists is stated by MarginalMeanSucceeds |
| Effects.MarginalMeanSucceeds | causality/analysis/dataframe.py:56-59 | the average exists exactly when every confounder is a column (or the treatment), the model predicts on `df[[treatment] + confounders]`, and it gives one score per row; otherwise the KeyError, the model's error or the length clash is raised |
| Effects.KernelPredictsOnOverwrite | causality/analysis/dataframe.py:56-59 | the kernel wrapper `_get_model` fits accepts the overwritten copy's matrix, so its shape check (lines 150-151) never fires on the mean and line paths |
| Effects.MarginalMeanAveragesOverRows | causality/analysis/dataframe.py:56-59 | the model scores every row with the treatment set to `xi` and the confounders as they are, one score per row, and the average is the mean of those scores |
| Effects.Collect | causality/analysis/dataframe.py:55-61 | the append loop that ends at the first exception (also lines 85-93 and 103-105); its meaning is stated by CollectPointwise, CollectSucceeds, CollectFailsAtFirstFailure and CollectStopsAtFailure |
| Effects.CollectPointwise | causality/analysis/dataframe.py:55-61 | a loop that completes appends exactly one value per step, in step order |
| Effects.CollectSucceeds | causality/analysis/dataframe.py:55-61 | a loop whose every step succeeds completes |
| Effects.CollectFailsAtFirstFailure | causality/analysis/dataframe.py:55-61 | a loop that fails raises the error of its first failing step |
| Effects.CollectStopsAtFailure | causality/analysis/dataframe.py:55-61 | a failure ends the loop: nothing after it is run |
| Effects.Sweep | causality/analysis/dataframe.py:54-61 | the averaging loop over a sequence of treatment values; its meaning is stated by SweepPointwise, SweepSucceeds and the Collect lemmas |
| Effects.SweepPointwise | causality/analysis/dataframe.py:54-61 | a completed sweep has one average per treatment value, in sweep order, and each is the marginal average at that value |
| Effects.SweepSucceeds | causality/analysis/dataframe.py:54-61 | the sweep completes when the average at every value does |
| Effects.DrawSpec | causality/analysis/dataframe.py:70-77 | the inner `f` on one resample; its meaning is stated by Zplot.DrawOnWholeFrame, Zplot.PointDrawsFacts and CausalFrame.CausalDataFrame.Draw |
| Effects.StatisticSpec | causality/analysis/dataframe.py:101-106 | `_bootstrap_statistic`; its meaning is stated by StatisticDraws and CausalFrame.CausalDataFrame.BootstrapStatistic |
| Effects.StatisticDraws | causality/analysis/dataframe.py:101-106 | `_bootstrap_statistic` returns exactly `bootstrap_samples` draws; each is `f` on a resample with as many rows as `df` |
| Effects.Present | causality/analysis/dataframe.py:87-89 | the series statistics keep every draw when none is NaN |
| Effects.PresentKeepsNumbers | causality/analysis/dataframe.py:87-89 | the statistics skip NaN draws: the numbers kept are exactly the numbers drawn, each as often as it was drawn |
| Effects.Summary | causality/analysis/dataframe.py:88-91 | the point estimate is the mean of the numeric draws; lower is mean minus the 2.5th percentile and upper is the 97.5th percentile minus the mean; all are NaN without numeric draws |
| Effects.IntervalWidth | causality/analysis/dataframe.py:88-91 | the two deltas add up to the percentile interval's width, which a monotone quantile makes non-negative |
| Zplot.RouteOf | causality/analysis/dataframe.py:9-18 | the frame is plotted directly exactly when `z` is falsy; with a truthy `z`: line iff `kind` is 'line', bar iff 'bar', bootstrapped mean iff 'mean' with a truthy `bootstrap_samples`, plain mean iff 'mean' without, and nothing for any other `kind` |
| Zplot.ZplotResult | causality/analysis/dataframe.py:8-22 | `zplot`; its meaning is stated by RouteOf, PlainForwardsOptions and the path lemmas below |
| Zplot.LinePlot | causality/analysis/dataframe.py:24-44 | `_line_zplot`; its meaning is stated by LinePlotPoints |
| Zplot.MeanPlot | causality/analysis/dataframe.py:46-65 | `_mean_zplot`; its meaning is stated by MeanPlotSteps, MeanPlotPoints, MeanPlotOptions and MeanPlotFromSweep |
| Zplot.BootstrappedMeanPlot | causality/analysis/dataframe.py:67-99 | `_bootstrapped_mean_zplot`; its meaning is stated by BootstrappedMeanSteps, BootstrappedMeanPoints, BootstrappedMeanOptions and BootstrappedMeanWithoutValuesFails |
| Zplot.PointDraws | causality/analysis/dataframe.py:85-87 | the draws at one treatment value, with `kwargs['xi']` set to it; stated by PointDrawsFacts |
| Zplot.PointSummary | causality/analysis/dataframe.py:86-91 | the loop body at one treatment value: its draws, then their mean and percentile deltas; stated by BootstrappedMeanPoints with Effects.Summary |
| Zplot.AfterLoop | causality/analysis/dataframe.py:85-94 | the options after the loop, `xi` the last treatment value; stated by CausalFrame.CausalDataFrame.SummaryLoop and BarOptionsForward |
| Zplot.PlainForwardsOptions | causality/analysis/dataframe.py:19-22 | without a truthy `z`, `zplot` plots the frame itself with every option but `z` forwarded unchanged |
| Zplot.MeanPlotSteps | causality/analysis/dataframe.py:46-65 | a mean path that succeeds plots the distinct treatment values against their sweep, with `z` and the winning key removed and `kind` set to 'bar' |
| Zplot.MeanPlotPoints | causality/analysis/dataframe.py:50-61 | the mean path has one point per distinct treatment value, each value exactly once, in first-occurrence order; each point is the marginal average under the selected model, and it is defined |
| Zplot.MeanPlotOptions | causality/analysis/dataframe.py:47-49 | the mean path forwards every caller option except `z`, `kind` and the winning key, unchanged; it adds only `kind`, which it sets to 'bar' (lines 62-64) |
| Zplot.LinePlotPoints | causality/analysis/dataframe.py:24-44 | the line path has one point per grid value, in grid order, each the marginal average at that value; it forwards exactly the caller's options but `z` and the winning key, unchanged, `kind` included, and adds none |
| Zplot.BootstrappedMeanSteps | causality/analysis/dataframe.py:78-97 | a bootstrapped path that succeeds plots the distinct values against the collected summaries, with the options after the loop minus `xi`, `z` and `bootstrap_samples`, plus `kind` and `yerr` |
| Zplot.PointDrawsFacts | causality/analysis/dataframe.py:85-87 | each treatment value has exactly `bootstrap_samples` draws, each `f` on a full-size resample with `xi` set to that value; setting `xi` does not change which backend is selected |
| Zplot.DrawsIgnoreModelClass | causality/analysis/dataframe.py:70-80 | with only `model` given, the outer selection uses the caller's class, but every draw selects the default forest |
| Zplot.BootstrappedMeanPoints | causality/analysis/dataframe.py:81-93 | the bootstrapped path has one interval per distinct treatment value, in first-occurrence order, each the summary of that value's draws |
| Zplot.BarOptionsForward | causality/analysis/dataframe.py:94-97 | after the deletes and the two assignments, every other option is kept unchanged and only `kind` and `yerr` are added |
| Zplot.BootstrappedMeanOptions | causality/analysis/dataframe.py:78-97 | the bootstrapped path forwards every caller option except the winning key, `xi`, `z`, `bootstrap_samples`, `kind` and `yerr`, unchanged; `kind` is 'bar' and `yerr` carries the deltas |
| Zplot.BootstrappedMeanWithoutValuesFails | causality/analysis/dataframe.py:85-94 | with an empty frame and no caller `xi`, `xi` is never set, so the final delete raises a KeyError on it |
| Zplot.ModelSpecIgnoresTreatmentValue | causality/analysis/dataframe.py:108-130 | setting `kwargs['xi']` changes nothing that `_get_model` reads |
| Zplot.IdentityResample | causality/analysis/dataframe.py:104 | a resampler that draws every row at its own position reproduces the frame |
| Zplot.DrawOnWholeFrame | causality/analysis/dataframe.py:70-77 | `f` on the frame itself is the marginal average at `xi` |
| Zplot.IdentityDrawsAgree | causality/analysis/dataframe.py:85-89 | with that resampler every draw is the same average, so the point estimate is the non-bootstrapped average |
| Zplot.MeanPlotFromSweep | causality/analysis/dataframe.py:46-65 | the mean path succeeds once its sweep over the distinct values does, and plots that sweep |
| Zplot.BootstrapAgreesWithMeanOnIdentityResample | causality/analysis/dataframe.py:85-93 | with the default backend and the identity resampler, the bootstrapped path and the mean path have the same treatment values, and each bootstrapped point estimate equals the mean path's average (lines 54-61) |
| CausalFrame.CausalDataFrame.constructor | causality/analysis/dataframe.py:7 | a frame holds the given rows |
| CausalFrame.CausalDataFrame.Copy | causality/analysis/dataframe.py:56 | `self.copy()` is a new object with the same rows |
| CausalFrame.CausalDataFrame.SetColumn | causality/analysis/dataframe.py:57 | `df[treatment] = xi` overwrites the column in place |
| CausalFrame.CausalDataFrame.Sample | causality/analysis/dataframe.py:104 | `df.sample(...)` is a new frame holding the resample |
| CausalFrame.CausalDataFrame.GetModel | causality/analysis/dataframe.py:108-130 | `_get_model` returns a fresh wrapper object for the kernel backend, fitted in place; its result and key are those of `ModelSpec` |
| CausalFrame.CausalDataFrame.MarginalMeanAt | causality/analysis/dataframe.py:56-59 | copy, overwrite, predict and average give `MarginalMean` |
| CausalFrame.CausalDataFrame.SweepLoop | causality/analysis/dataframe.py:54-61 | the appending loop computes the sweep and stops at its first failure |
| CausalFrame.CausalDataFrame.LineZplot | causality/analysis/dataframe.py:24-44 | `_line_zplot` yields `LinePlot` |
| CausalFrame.CausalDataFrame.MeanZplot | causality/analysis/dataframe.py:46-65 | `_mean_zplot` yields `MeanPlot` |
| CausalFrame.CausalDataFrame.Draw | causality/analysis/dataframe.py:70-77 | `f` gives `DrawSpec`: the model is selected and fit on the whole frame; once selection, `x` and `xi` succeed, the resample's treatment column is overwritten in place (and stays so whatever the prediction does); otherwise the resample is unchanged |
| CausalFrame.CausalDataFrame.BootstrapStatistic | causality/analysis/dataframe.py:101-106 | the sampling loop gives `StatisticSpec` |
| CausalFrame.CausalDataFrame.SummaryLoop | causality/analysis/dataframe.py:85-93 | the loop over distinct values gives the collected summaries; the options it leaves behind hold the last treatment value as `xi` |
| CausalFrame.CausalDataFrame.BootstrappedMeanZplot | causality/analysis/dataframe.py:67-99 | `_bootstrapped_mean_zplot` yields `BootstrappedMeanPlot` |
| CausalFrame.CausalDataFrame.Zplot | causality/analysis/dataframe.py:8-22 | `zplot` yields `ZplotResult`: the routed path's plot, the `_bar_zplot` AttributeError, or nothing |

## Left out

- Rendering: the plotting calls (`self.plot`, `df.plot`) are modelled as the data and options handed to them (`Plot`). `*args` are not modelled.
- The `yerr` payload `zip(lowers, uppers)` is a marker value (`VErrorBars`). The deltas themselves are carried in the plot data (`Interval`).
- The continuous grid `np.arange(xmin, xmax, (xmax - xmin) / 100.)` and the default `xlim` percentiles are not computed. The grid is a parameter of the line path. The column lookup that the percentile default performs is kept.
- Randomness: `df.sample` draws rows through the resampler parameter `pick`.
- The numerics of the random forest, of caller-supplied models and of `KernelReg` are opaque function parameters (`Backends`, `Estimate`). `Series.quantile` is an opaque `Quantile`. Floating point is modelled by `real`.
- The prediction column `'$E[Y|X=x,Z]$'` is never added to a frame. `df.mean()` over the other columns is not modelled. Only the mean of the predictions, which the code reads, is computed.
- `pd.DataFrame({treatment: xs, outcome: ys})` is modelled as the pair of point lists.
- Column names are strings only. A non-string `x` fails as a missing column name, and cell values are numbers.
- `_bar_zplot` is not defined in the source, so the bar route ends in its AttributeError.
- Python 2 semantics are modelled: `dict.keys()` is a list that can be concatenated, and `zip` makes a list.
- Kernel.KernelTypeStringPerColumn: the per-column correspondence is stated only for one-character tags. For longer tags the joined string is stated by Kernel.KernelTypeStringJoined, without a position per column.
- Selection.KernelSelectionTypeString: stated only for one-character tags, where each column has one position. For tags of any length the type string is stated by Selection.KernelSelectionTags.
- Kernel.KernelModelWrapper.Fit: `y.shape` is recorded as the length of `y`, not as a one-element tuple.
- Selection.Backends: every fit and every `predict` of a random forest, a caller's model class or a fitted instance is modelled as a deterministic function that never fails. The unseeded `RandomForestRegressor()` of line 127 fits a different forest at each call, and sklearn's `fit` raises on a frame with no rows; the model captures neither. Zplot.DrawOnWholeFrame, Zplot.IdentityDrawsAgree and Zplot.BootstrapAgreesWithMeanOnIdentityResample equate a draw's model with the outer one only because of this determinism, and Zplot.BootstrappedMeanWithoutValuesFails reaches the delete of `xi` on an empty frame only because the fit does not fail (with the default forest the code never gets that far on an empty frame; with `fit_model`, or a caller's class that accepts zero rows, it does).
- Selection.ModelSpecSucceeds: the construction `KernelReg(y, X, var_type, reg_type='ll')` (line 125) and its `fit(X)` are modelled as never failing. The library takes one character per column from 'c', 'o' and 'u', and raises on a type string whose length is not the number of columns or that holds another character; so with a tag longer than one character, or a tag such as 'x', `_get_model` raises in the code while the model's kernel branch succeeds whenever the training columns exist. Selection.ModelSpecSucceeds, Selection.KernelEstimatorData, Selection.KernelSelectionTags and Kernel.KernelTypeStringJoined rely on this. Tag values of `z` are strings only: a non-string tag, which makes the `''.join` of line 143 raise a TypeError, cannot be expressed.
- Values.TreatmentValue: only a real `xi` is accepted; an int passed by the caller, which the code would accept, is a type error in the model. The loop sets `xi` to reals only.
- Effects.MarginalMeanAveragesOverRows: a confounder that names the treatment column itself is not characterised. It reads the overwritten value, as the code does.
