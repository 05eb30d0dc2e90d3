/** `zplot` and its paths as functions of the frame and the options: the
    route the options select, the plotting call each path ends in, and the
    options it forwards to that call. */
module Zplot {
  import opened Values
  import opened Frames
  import opened Selection
  import opened Effects

  datatype Route = ToPlot | ToLine | ToBar | ToMean | ToBootstrappedMean | ToNothing

  /** The dispatch of `zplot`. */
  function RouteOf(kw: Options): (r: Route)
    ensures r == ToPlot <==> !Truthy(Get(kw, "z", VTags([])))
    ensures Truthy(Get(kw, "z", VTags([]))) ==>
      && (r == ToLine <==> Get(kw, "kind", VNone) == VStr("line"))
      && (r == ToBar <==> Get(kw, "kind", VNone) == VStr("bar"))
      && (r == ToBootstrappedMean <==> Get(kw, "kind", VNone) == VStr("mean") && Truthy(Get(kw, "bootstrap_samples", VInt(0))))
      && (r == ToMean <==> Get(kw, "kind", VNone) == VStr("mean") && !Truthy(Get(kw, "bootstrap_samples", VInt(0))))
      && (r == ToNothing <==> Get(kw, "kind", VNone) !in {VStr("line"), VStr("bar"), VStr("mean")})
  {
    if Truthy(Get(kw, "z", VTags([]))) then
      if Get(kw, "kind", VNone) == VStr("line") then ToLine
      else if Get(kw, "kind", VNone) == VStr("bar") then ToBar
      else if Get(kw, "kind", VNone) == VStr("mean") then
        if Truthy(Get(kw, "bootstrap_samples", VInt(0))) then ToBootstrappedMean else ToMean
      else ToNothing
    else ToPlot
  }

  /** What a path hands to the plotting library. */
  datatype PlotData =
    | WholeFrame                                            // `self.plot(...)`
    | Curve(xs: seq<real>, ys: seq<Option<real>>)           // a frame of (treatment, outcome) points
    | Bars(xs: seq<real>, intervals: seq<Option<Interval>>) // expected outcomes with their deltas

  datatype Plot = Plot(data: PlotData, options: Options)

  /** `_line_zplot` over a given grid of treatment values. */
  function LinePlot(f: Frame, kw: Options, env: Backends, grid: seq<real>): Result<Plot> {
    var got :- ModelSpec(f, kw, env);
    var opts := Strip(kw, got.1);
    var treatment :- ColumnName(opts, "x");
    var z :- Confounders(opts);
    // the percentile default of `xlim` reads the treatment column even when `xlim` is given
    if treatment !in f.columns then Err(MissingColumn(treatment))
    else
      var ys :- Sweep(f, treatment, Keys(z), got.0, grid, env.estimate);
      if "z" !in opts then Err(MissingKey("z"))
      else Ok(Plot(Curve(grid, ys), opts - {"z"}))
  }

  /** `_mean_zplot`: one bar per distinct treatment value. */
  function MeanPlot(f: Frame, kw: Options, env: Backends): Result<Plot> {
    var got :- ModelSpec(f, kw, env);
    var opts := Strip(kw, got.1);
    var treatment :- ColumnName(opts, "x");
    var column :- Column(f, treatment);
    var xs := Unique(column);
    var z :- Confounders(opts);
    var ys :- Sweep(f, treatment, Keys(z), got.0, xs, env.estimate);
    if "z" !in opts then Err(MissingKey("z"))
    else Ok(Plot(Curve(xs, ys), (opts - {"z"})["kind" := VStr("bar")]))
  }

  /** The body of the loop of `_bootstrapped_mean_zplot` for the `i`-th
      treatment value `v`: `kwargs['xi'] = v`, then the draws. */
  function PointDraws(f: Frame, opts: Options, env: Backends, pick: Sampler, i: nat, v: real): Result<seq<Option<real>>>
    requires Draws(pick, |f.rows|)
  {
    StatisticSpec(f, f, opts["xi" := VReal(v)], env, pick, i)
  }

  /** The loop body's summary of those draws. */
  function PointSummary(f: Frame, opts: Options, env: Backends, quantile: Quantile, pick: Sampler, i: nat, v: real):
    Result<Option<Interval>>
    requires Draws(pick, |f.rows|)
  {
    var samples :- PointDraws(f, opts, env, pick, i, v);
    Ok(Summary(samples, quantile))
  }

  /** The summary at every treatment value, in order. */
  function PointSummaries(f: Frame, opts: Options, env: Backends, quantile: Quantile, pick: Sampler, xs: seq<real>):
    (r: seq<Result<Option<Interval>>>)
    requires Draws(pick, |f.rows|)
    ensures |r| == |xs|
    ensures forall i :: 0 <= i < |xs| ==> r[i] == PointSummary(f, opts, env, quantile, pick, i, xs[i])
  {
    seq(|xs|, i requires 0 <= i < |xs| => PointSummary(f, opts, env, quantile, pick, i, xs[i]))
  }

  /** The options after the loop: `xi` holds the last treatment value, or is
      whatever the caller passed when there was none. */
  function AfterLoop(opts: Options, xs: seq<real>): Options {
    if xs == [] then opts else opts["xi" := VReal(xs[|xs| - 1])]
  }

  /** `_bootstrapped_mean_zplot`. */
  function BootstrappedMeanPlot(f: Frame, kw: Options, env: Backends, quantile: Quantile, pick: Sampler): Result<Plot>
    requires Draws(pick, |f.rows|)
  {
    var got :- ModelSpec(f, kw, env);
    var opts := Strip(kw, got.1);
    var treatment :- ColumnName(opts, "x");
    var column :- Column(f, treatment);
    var xs := Unique(column);
    var stats :- Collect(PointSummaries(f, opts, env, quantile, pick, xs));
    var last := AfterLoop(opts, xs);
    if "xi" !in last then Err(MissingKey("xi"))
    else if "z" !in last then Err(MissingKey("z"))
    else if "bootstrap_samples" !in last then Err(MissingKey("bootstrap_samples"))
    else Ok(Plot(Bars(xs, stats), BarOptions(kw, got.1, xs)))
  }

  /** `zplot`: None when it falls through without returning. */
  function ZplotResult(f: Frame, kw: Options, env: Backends, grid: seq<real>, quantile: Quantile, pick: Sampler):
    Result<Option<Plot>>
    requires Draws(pick, |f.rows|)
  {
    match RouteOf(kw)
    case ToPlot => Ok(Some(Plot(WholeFrame, kw - {"z"})))
    case ToLine => var p :- LinePlot(f, kw, env, grid); Ok(Some(p))
    case ToBar => Err(UndefinedMethod("_bar_zplot"))
    case ToMean => var p :- MeanPlot(f, kw, env); Ok(Some(p))
    case ToBootstrappedMean => var p :- BootstrappedMeanPlot(f, kw, env, quantile, pick); Ok(Some(p))
    case ToNothing => Ok(None)
  }

  /** Without a non-empty `z`, `zplot` plots the frame itself with every
      option but `z` forwarded unchanged. */
  lemma PlainForwardsOptions(f: Frame, kw: Options, env: Backends, grid: seq<real>, quantile: Quantile, pick: Sampler)
    requires Draws(pick, |f.rows|) && !Truthy(Get(kw, "z", VTags([])))
    ensures ZplotResult(f, kw, env, grid, quantile, pick).Ok?
    ensures var p := ZplotResult(f, kw, env, grid, quantile, pick).value;
      && p.Some? && p.value.data == WholeFrame
      && "z" !in p.value.options
      && forall k :: k != "z" ==> (k in kw <==> k in p.value.options) && (k in kw ==> p.value.options[k] == kw[k])
  {
  }

  /** The intermediate results of a mean path that succeeds. */
  lemma MeanPlotSteps(f: Frame, kw: Options, env: Backends)
    requires MeanPlot(f, kw, env).Ok?
    ensures ModelSpec(f, kw, env).Ok? && ColumnName(kw, "x").Ok? && Confounders(kw).Ok?
    ensures Column(f, ColumnName(kw, "x").value).Ok?
    ensures var got := ModelSpec(f, kw, env).value;
      var xs := Unique(Column(f, ColumnName(kw, "x").value).value);
      var ys := Sweep(f, ColumnName(kw, "x").value, Keys(Confounders(kw).value), got.0, xs, env.estimate);
      && ys.Ok? && "z" in kw
      && MeanPlot(f, kw, env).value == Plot(Curve(xs, ys.value), (Strip(kw, got.1) - {"z"})["kind" := VStr("bar")])
  {
    var got := ModelSpec(f, kw, env).value;
    var opts := Strip(kw, got.1);
    assert ColumnName(opts, "x") == ColumnName(kw, "x");
    assert Confounders(opts) == Confounders(kw);
  }

  /** The mean path: one point per distinct treatment value, no duplicates,
      in first-occurrence order, each the marginal average of the selected
      model's predictions with the treatment overwritten to that value. */
  lemma MeanPlotPoints(f: Frame, kw: Options, env: Backends)
    requires MeanPlot(f, kw, env).Ok?
    ensures ModelSpec(f, kw, env).Ok? && ColumnName(kw, "x").Ok? && Confounders(kw).Ok?
    ensures Column(f, ColumnName(kw, "x").value).Ok?
    ensures var p := MeanPlot(f, kw, env).value;
      var column := Column(f, ColumnName(kw, "x").value).value;
      && p.data.Curve?
      && p.data.xs == Unique(column)
      && Distinct(p.data.xs)
      && (forall v :: v in p.data.xs <==> v in column)
      && (forall i, j :: 0 <= i < j < |p.data.xs| ==> FirstIndex(column, p.data.xs[i]) < FirstIndex(column, p.data.xs[j]))
      && |p.data.ys| == |p.data.xs|
      && forall i :: 0 <= i < |p.data.xs| ==>
           MarginalMean(f, ColumnName(kw, "x").value, Keys(Confounders(kw).value), ModelSpec(f, kw, env).value.0,
                        p.data.xs[i], env.estimate) == Ok(p.data.ys[i])
           && p.data.ys[i].Some?
  {
    MeanPlotSteps(f, kw, env);
    var m := ModelSpec(f, kw, env).value.0;
    var column := Column(f, ColumnName(kw, "x").value).value;
    var xs := Unique(column);
    var confs := Keys(Confounders(kw).value);
    SweepPointwise(f, ColumnName(kw, "x").value, confs, m, xs, env.estimate);
    forall i, j | 0 <= i < j < |xs| ensures FirstIndex(column, xs[i]) < FirstIndex(column, xs[j]) {
      UniqueInFirstOccurrenceOrder(column, i, j);
    }
    if xs != [] {
      assert xs[0] in column;
    }
  }

  /** The mean path forwards every option but `z` and the winning model key,
      with `kind` forced to 'bar'. */
  lemma MeanPlotOptions(f: Frame, kw: Options, env: Backends)
    requires MeanPlot(f, kw, env).Ok?
    ensures var o := MeanPlot(f, kw, env).value.options; var key := Choose(kw).1;
      && "z" !in o && (key.Some? ==> key.value !in o)
      && "kind" in o && o["kind"] == VStr("bar")
      && (forall k :: k in kw && k != "z" && k != "kind" && key != Some(k) ==> k in o && o[k] == kw[k])
      && forall k :: k in o ==> k in kw || k == "kind"
  {
    MeanPlotSteps(f, kw, env);
  }

  /** The line path: one average per grid value, in grid order; it forwards
      every option but `z` and the winning model key, `kind` included. */
  lemma LinePlotPoints(f: Frame, kw: Options, env: Backends, grid: seq<real>)
    requires LinePlot(f, kw, env, grid).Ok?
    ensures ModelSpec(f, kw, env).Ok? && ColumnName(kw, "x").Ok? && Confounders(kw).Ok?
    ensures var p := LinePlot(f, kw, env, grid).value; var key := Choose(kw).1;
      && p.data.Curve? && p.data.xs == grid && |p.data.ys| == |grid|
      && (forall i :: 0 <= i < |grid| ==>
            MarginalMean(f, ColumnName(kw, "x").value, Keys(Confounders(kw).value), ModelSpec(f, kw, env).value.0,
                         grid[i], env.estimate) == Ok(p.data.ys[i]))
      && "z" !in p.options && (key.Some? ==> key.value !in p.options)
      && (forall k :: k in kw && k != "z" && key != Some(k) ==> k in p.options && p.options[k] == kw[k])
      && forall k :: k in p.options ==> k in kw
  {
    var got := ModelSpec(f, kw, env).value;
    var opts := Strip(kw, got.1);
    assert opts["x"] == kw["x"];
    SweepPointwise(f, ColumnName(kw, "x").value, Keys(Confounders(kw).value), got.0, grid, env.estimate);
  }

  /** The intermediate results of a bootstrapped path that succeeds. */
  lemma BootstrappedMeanSteps(f: Frame, kw: Options, env: Backends, quantile: Quantile, pick: Sampler)
    requires Draws(pick, |f.rows|) && BootstrappedMeanPlot(f, kw, env, quantile, pick).Ok?
    ensures ModelSpec(f, kw, env).Ok? && ColumnName(kw, "x").Ok? && Column(f, ColumnName(kw, "x").value).Ok?
    ensures var opts := Strip(kw, ModelSpec(f, kw, env).value.1);
      var xs := Unique(Column(f, ColumnName(kw, "x").value).value);
      var stats := Collect(PointSummaries(f, opts, env, quantile, pick, xs));
      var last := AfterLoop(opts, xs);
      && stats.Ok? && "xi" in last && "z" in last && "bootstrap_samples" in last
      && BootstrappedMeanPlot(f, kw, env, quantile, pick).value ==
           Plot(Bars(xs, stats.value), BarOptions(kw, ModelSpec(f, kw, env).value.1, xs))
  {
    var got := ModelSpec(f, kw, env).value;
    var opts := Strip(kw, got.1);
    assert ColumnName(opts, "x") == ColumnName(kw, "x");
  }

  /** One treatment value's draws: `bootstrap_samples` of them, each on a
      resample of the frame's size, with a model selected from the same
      options as the loop's, `xi` aside. */
  lemma PointDrawsFacts(f: Frame, opts: Options, env: Backends, pick: Sampler, i: nat, v: real)
    requires Draws(pick, |f.rows|) && PointDraws(f, opts, env, pick, i, v).Ok?
    ensures DrawCount(opts).Ok?
    ensures var o := opts["xi" := VReal(v)]; var draws := PointDraws(f, opts, env, pick, i, v).value;
      && |draws| == DrawCount(opts).value
      && (forall d :: 0 <= d < |draws| ==>
            |Resample(f, |f.rows|, pick, i, d).rows| == |f.rows|
            && DrawSpec(f, Resample(f, |f.rows|, pick, i, d), o, env) == Ok(draws[d]))
      && Choose(o) == Choose(opts)
  {
    var o := opts["xi" := VReal(v)];
    StatisticDraws(f, f, o, env, pick, i);
    assert DrawCount(o) == DrawCount(opts);
    assert Get(o, "model", VNone) == Get(opts, "model", VNone);
    assert Get(o, "fit_model", VNone) == Get(opts, "fit_model", VNone);
    assert Get(o, "model_type", VStr("")) == Get(opts, "model_type", VStr(""));
  }

  /** The draws of the bootstrapped path select their model again, from the
      options with the winning key already deleted: a model class given as
      `model` is used by no draw when neither `fit_model` nor a kernel
      `model_type` is given, and the draws fit the default forest instead. */
  lemma DrawsIgnoreModelClass(kw: Options, v: real)
    requires Truthy(Get(kw, "model", VNone)) && !Truthy(Get(kw, "fit_model", VNone))
    requires Get(kw, "model_type", VStr("")) != VStr("kernel")
    ensures Choose(kw).0 == UserClass(kw["model"])
    ensures Choose(Strip(kw, Choose(kw).1)["xi" := VReal(v)]).0 == DefaultForest
  {
    var opts := Strip(kw, Choose(kw).1);
    ReselectionAfterStrip(kw);
    var o := opts["xi" := VReal(v)];
    assert Get(o, "model", VNone) == Get(opts, "model", VNone);
    assert Get(o, "fit_model", VNone) == Get(opts, "fit_model", VNone);
    assert Get(o, "model_type", VStr("")) == Get(opts, "model_type", VStr(""));
  }

  /** The bootstrapped path: one interval per distinct treatment value, in
      first-occurrence order, each the summary of that value's draws. */
  lemma BootstrappedMeanPoints(f: Frame, kw: Options, env: Backends, quantile: Quantile, pick: Sampler)
    requires Draws(pick, |f.rows|) && BootstrappedMeanPlot(f, kw, env, quantile, pick).Ok?
    ensures ModelSpec(f, kw, env).Ok? && ColumnName(kw, "x").Ok? && Column(f, ColumnName(kw, "x").value).Ok?
    ensures var p := BootstrappedMeanPlot(f, kw, env, quantile, pick).value;
      var opts := Strip(kw, Choose(kw).1);
      var column := Column(f, ColumnName(kw, "x").value).value;
      && p.data.Bars?
      && p.data.xs == Unique(column)
      && |p.data.intervals| == |p.data.xs|
      && forall i :: 0 <= i < |p.data.xs| ==>
           && PointDraws(f, opts, env, pick, i, p.data.xs[i]).Ok?
           && p.data.intervals[i] == Summary(PointDraws(f, opts, env, pick, i, p.data.xs[i]).value, quantile)
  {
    BootstrappedMeanSteps(f, kw, env, quantile, pick);
    var got := ModelSpec(f, kw, env).value;
    var opts := Strip(kw, got.1);
    var column := Column(f, ColumnName(kw, "x").value).value;
    var xs := Unique(column);
    CollectPointwise(PointSummaries(f, opts, env, quantile, pick, xs));
  }

  /** The options the bootstrapped path forwards to `df.plot` (lines 94-97):
      those after the loop, without `xi`, `z` and `bootstrap_samples`, with
      `kind` set to 'bar' and `yerr` to the error bars. */
  function BarOptions(kw: Options, key: Option<string>, xs: seq<real>): Options {
    (AfterLoop(Strip(kw, key), xs) - {"xi", "z", "bootstrap_samples"})["kind" := VStr("bar")]["yerr" := VErrorBars]
  }

  /** After the deletes of lines 94-96 and the two assignments, `z`, `xi`,
      `bootstrap_samples` and the winning key are gone, `kind` is 'bar',
      `yerr` is set, and every other option is the caller's. */
  lemma BarOptionsForward(kw: Options, key: Option<string>, xs: seq<real>)
    requires key != Some("kind") && key != Some("yerr")
    ensures var o := BarOptions(kw, key, xs);
      && "z" !in o && "xi" !in o && "bootstrap_samples" !in o && (key.Some? ==> key.value !in o)
      && "kind" in o && o["kind"] == VStr("bar") && "yerr" in o && o["yerr"] == VErrorBars
      && (forall k :: k in kw && k !in {"z", "xi", "bootstrap_samples", "kind", "yerr"} && key != Some(k) ==>
            k in o && o[k] == kw[k])
      && forall k :: k in o ==> k in kw || k == "kind" || k == "yerr"
  {
    var opts := Strip(kw, key);
    var last := AfterLoop(opts, xs);
    var o := BarOptions(kw, key, xs);
    forall k | k in kw && k !in {"z", "xi", "bootstrap_samples", "kind", "yerr"} && key != Some(k)
      ensures k in o && o[k] == kw[k]
    {
      assert last[k] == opts[k];
    }
    forall k | k in o ensures k in kw || k == "kind" || k == "yerr" {
      if k != "kind" && k != "yerr" {
        assert k in last && k != "xi";
        assert k in opts;
      }
    }
  }

  /** The bootstrapped path forwards every option but the winning model key,
      `xi`, `z` and `bootstrap_samples`, with `kind` forced to 'bar' and the
      deltas as `yerr`. */
  lemma BootstrappedMeanOptions(f: Frame, kw: Options, env: Backends, quantile: Quantile, pick: Sampler)
    requires Draws(pick, |f.rows|) && BootstrappedMeanPlot(f, kw, env, quantile, pick).Ok?
    ensures var o := BootstrappedMeanPlot(f, kw, env, quantile, pick).value.options; var key := Choose(kw).1;
      && "z" !in o && "xi" !in o && "bootstrap_samples" !in o && (key.Some? ==> key.value !in o)
      && "kind" in o && o["kind"] == VStr("bar") && "yerr" in o && o["yerr"] == VErrorBars
      && (forall k :: k in kw && k !in {"z", "xi", "bootstrap_samples", "kind", "yerr"} && key != Some(k) ==>
            k in o && o[k] == kw[k])
      && forall k :: k in o ==> k in kw || k == "kind" || k == "yerr"
  {
    BootstrappedMeanSteps(f, kw, env, quantile, pick);
    var xs := Unique(Column(f, ColumnName(kw, "x").value).value);
    BarOptionsForward(kw, Choose(kw).1, xs);
  }

  /** Deleting `xi` fails when the treatment column has no values and the
      caller passed no `xi`: it is only set inside the loop. */
  lemma BootstrappedMeanWithoutValuesFails(f: Frame, kw: Options, env: Backends, quantile: Quantile, pick: Sampler)
    requires Draws(pick, |f.rows|) && |f.rows| == 0 && "xi" !in kw
    requires ModelSpec(f, kw, env).Ok? && ColumnName(kw, "x").Ok? && ColumnName(kw, "x").value in f.columns
    ensures BootstrappedMeanPlot(f, kw, env, quantile, pick) == Err(MissingKey("xi"))
  {
    var got := ModelSpec(f, kw, env).value;
    var opts := Strip(kw, got.1);
    assert opts["x"] == kw["x"];
    assert Column(f, ColumnName(kw, "x").value).value == [];
  }

  /** Setting `xi` changes nothing `_get_model` reads. */
  lemma ModelSpecIgnoresTreatmentValue(f: Frame, kw: Options, env: Backends, v: Value)
    ensures ModelSpec(f, kw["xi" := v], env) == ModelSpec(f, kw, env)
  {
    var o := kw["xi" := v];
    assert Confounders(o) == Confounders(kw);
    assert Choose(o) == Choose(kw);
    if Confounders(kw).Ok? {
      var z := Confounders(kw).value;
      assert ColumnName(o, "x") == ColumnName(kw, "x");
      assert ColumnName(o, "y") == ColumnName(kw, "y");
      assert Training(f, o, z) == Training(f, kw, z);
    }
  }

  /** A resample that takes every row at its own position is the frame. */
  lemma IdentityResample(f: Frame, pick: Sampler, i: nat, d: nat)
    requires forall i': nat, d': nat, j: nat :: pick(i', d', j) == j
    ensures Draws(pick, |f.rows|) && Resample(f, |f.rows|, pick, i, d) == f
  {
    var r := Resample(f, |f.rows|, pick, i, d);
    assert r.rows == f.rows;
  }

  /** A draw on the frame itself, with `xi` set, is the marginal average at
      `xi` under the model selected from the options without it. */
  lemma DrawOnWholeFrame(f: Frame, kw: Options, env: Backends, v: real)
    requires ModelSpec(f, kw, env).Ok? && ColumnName(kw, "x").Ok? && Confounders(kw).Ok?
    ensures DrawSpec(f, f, kw["xi" := VReal(v)], env) ==
      MarginalMean(f, ColumnName(kw, "x").value, Keys(Confounders(kw).value), ModelSpec(f, kw, env).value.0, v, env.estimate)
  {
    var o := kw["xi" := VReal(v)];
    ModelSpecIgnoresTreatmentValue(f, kw, env, VReal(v));
    assert ColumnName(o, "x") == ColumnName(kw, "x");
    assert Confounders(o) == Confounders(kw);
    assert TreatmentValue(o) == Ok(v);
  }

  /** With the identity resampler every draw for one treatment value is the
      same average, so their mean is that average. */
  lemma IdentityDrawsAgree(f: Frame, kw: Options, env: Backends, quantile: Quantile, pick: Sampler, i: nat, v: real)
    requires forall i': nat, d: nat, j: nat :: pick(i', d, j) == j
    requires |f.rows| > 0 && ModelSpec(f, kw, env).Ok? && ColumnName(kw, "x").Ok? && Confounders(kw).Ok?
    requires Draws(pick, |f.rows|) && PointDraws(f, kw, env, pick, i, v).Ok?
    requires |PointDraws(f, kw, env, pick, i, v).value| > 0
    ensures var y := MarginalMean(f, ColumnName(kw, "x").value, Keys(Confounders(kw).value), ModelSpec(f, kw, env).value.0,
                                  v, env.estimate);
      && y.Ok? && y.value.Some?
      && Summary(PointDraws(f, kw, env, pick, i, v).value, quantile).Some?
      && Summary(PointDraws(f, kw, env, pick, i, v).value, quantile).value.expected == y.value.value
  {
    var o := kw["xi" := VReal(v)];
    var draws := PointDraws(f, kw, env, pick, i, v).value;
    var y := MarginalMean(f, ColumnName(kw, "x").value, Keys(Confounders(kw).value), ModelSpec(f, kw, env).value.0,
                          v, env.estimate);
    PointDrawsFacts(f, kw, env, pick, i, v);
    DrawOnWholeFrame(f, kw, env, v);
    IdentityResample(f, pick, i, 0);
    assert y == Ok(draws[0]);
    forall d | 0 <= d < |draws| ensures draws[d] == y.value {
      IdentityResample(f, pick, i, d);
    }
    MeanOfCopies(Present(draws), y.value.value);
  }

  /** The mean path succeeds once its sweep over the distinct values does. */
  lemma MeanPlotFromSweep(f: Frame, kw: Options, env: Backends)
    requires ModelSpec(f, kw, env).Ok? && ColumnName(kw, "x").Ok? && Confounders(kw).Ok? && "z" in kw
    requires Column(f, ColumnName(kw, "x").value).Ok?
    requires Sweep(f, ColumnName(kw, "x").value, Keys(Confounders(kw).value), ModelSpec(f, kw, env).value.0,
                   Unique(Column(f, ColumnName(kw, "x").value).value), env.estimate).Ok?
    ensures MeanPlot(f, kw, env).Ok?
    ensures MeanPlot(f, kw, env).value.data ==
      Curve(Unique(Column(f, ColumnName(kw, "x").value).value),
            Sweep(f, ColumnName(kw, "x").value, Keys(Confounders(kw).value), ModelSpec(f, kw, env).value.0,
                  Unique(Column(f, ColumnName(kw, "x").value).value), env.estimate).value)
  {
    var got := ModelSpec(f, kw, env).value;
    var opts := Strip(kw, got.1);
    assert ColumnName(opts, "x") == ColumnName(kw, "x");
    assert Confounders(opts) == Confounders(kw);
  }

  /** When the default backend was selected and the resampler takes every
      row at its own position, each bootstrapped point estimate equals the
      mean path's average at that treatment value. */
  lemma BootstrapAgreesWithMeanOnIdentityResample(f: Frame, kw: Options, env: Backends, quantile: Quantile,
                                                  pick: Sampler)
    requires forall i: nat, d: nat, j: nat :: pick(i, d, j) == j
    requires Choose(kw).0 == DefaultForest && DrawCount(kw) != Ok(0)
    requires Draws(pick, |f.rows|) && BootstrappedMeanPlot(f, kw, env, quantile, pick).Ok?
    ensures MeanPlot(f, kw, env).Ok?
    ensures var boot := BootstrappedMeanPlot(f, kw, env, quantile, pick).value.data;
      var mean := MeanPlot(f, kw, env).value.data;
      && boot.Bars? && mean.Curve? && boot.xs == mean.xs
      && |boot.intervals| == |boot.xs| && |mean.ys| == |mean.xs|
      && forall i :: 0 <= i < |boot.xs| ==>
           boot.intervals[i].Some? && mean.ys[i].Some? && boot.intervals[i].value.expected == mean.ys[i].value
  {
    BootstrappedMeanSteps(f, kw, env, quantile, pick);
    BootstrappedMeanPoints(f, kw, env, quantile, pick);
    var m := ModelSpec(f, kw, env).value.0;
    assert Strip(kw, None) == kw;
    var treatment := ColumnName(kw, "x").value;
    var column := Column(f, treatment).value;
    var xs := Unique(column);
    var confs := Keys(Confounders(kw).value);
    var boot := BootstrappedMeanPlot(f, kw, env, quantile, pick).value.data;
    assert boot.xs == xs && |boot.intervals| == |xs|;
    forall i | 0 <= i < |xs|
      ensures MarginalMean(f, treatment, confs, m, xs[i], env.estimate).Ok?
      ensures MarginalMean(f, treatment, confs, m, xs[i], env.estimate).value.Some?
      ensures boot.intervals[i].Some?
      ensures boot.intervals[i].value.expected == MarginalMean(f, treatment, confs, m, xs[i], env.estimate).value.value
    {
      assert xs[i] in column;
      PointDrawsFacts(f, kw, env, pick, i, xs[i]);
      IdentityDrawsAgree(f, kw, env, quantile, pick, i, xs[i]);
    }
    SweepSucceeds(f, treatment, confs, m, xs, env.estimate);
    SweepPointwise(f, treatment, confs, m, xs, env.estimate);
    assert "z" in kw by {
      assert "z" in AfterLoop(kw, xs);
    }
    MeanPlotFromSweep(f, kw, env);
  }
}
