/** `CausalDataFrame`: a data frame with the `zplot` family of methods. Each
    method is proved to compute what the functions of Selection, Effects and
    Zplot specify, on the frame's rows as they stand. */
module CausalFrame {
  import opened Values
  import opened Frames
  import opened Kernel
  import opened Selection
  import opened Effects
  import opened Zplot

  /** The value view of what `GetModel` returns. */
  function Viewed(r: Result<(Model, Option<string>)>): Result<(Fitted, Option<string>)>
    reads if r.Ok? then Footprint(r.value.0) else {}
  {
    match r
    case Ok(got) => Ok((View(got.0), got.1))
    case Err(e) => Err(e)
  }

  class CausalDataFrame {
    var data: Frame

    constructor (t: Frame)
      ensures data == t
    {
      data := t;
    }

    /** `self.copy()` */
    method Copy() returns (c: CausalDataFrame)
      ensures fresh(c) && c.data == data
    {
      c := new CausalDataFrame(data);
    }

    /** `self[name] = v` */
    method SetColumn(name: string, v: real)
      modifies this
      ensures data == Overwrite(old(data), name, v)
    {
      data := Overwrite(data, name, v);
    }

    /** `self.sample(n=n, replace=True)`, with the rows given by the resampler. */
    method Sample(n: nat, pick: Sampler, i: nat, d: nat) returns (s: CausalDataFrame)
      requires Draws(pick, |data.rows|) && n <= |data.rows|
      ensures fresh(s) && s.data == Resample(data, n, pick, i, d)
    {
      s := new CausalDataFrame(Resample(data, n, pick, i, d));
    }

    /** `_get_model`: the kernel backend is a new wrapper object, fit here. */
    method GetModel(kw: Options, env: Backends) returns (r: Result<(Model, Option<string>)>)
      ensures r.Ok? ==> fresh(Footprint(r.value.0))
      ensures Viewed(r) == ModelSpec(data, kw, env)
    {
      var z :- Confounders(kw);
      var choice := Choose(kw);
      match choice.0
      case UserFitted(v) =>
        r := Ok((Held(if v.VModel? then Opaque(env.instance(v.id)) else NotAModel), choice.1));
      case UserClass(v) =>
        if !v.VClass? {
          return Err(WrongType("model"));
        }
        var training :- Training(data, kw, z);
        r := Ok((Held(Opaque(env.fitClass(v.cls, training.0, training.1))), choice.1));
      case KernelBackend =>
        var w := new KernelModelWrapper();
        var training :- Training(data, kw, z);
        var treatment := kw["x"].s;
        KernelFitIsTyped(z, treatment);
        AssignKeepsKeysDistinct(z, treatment, "c");
        var _ := w.Fit(training.0, training.1, Assign(z, treatment, "c"));
        r := Ok((Wrapped(w), choice.1));
      case DefaultForest =>
        var training :- Training(data, kw, z);
        r := Ok((Held(Opaque(env.fitForest(training.0, training.1))), choice.1));
    }

    /** The body of the averaging loops: copy, overwrite the treatment,
        predict, average. */
    method MarginalMeanAt(m: Model, treatment: string, confounders: seq<string>, xi: real, env: Backends)
      returns (r: Result<Option<real>>)
      ensures r == MarginalMean(data, treatment, confounders, View(m), xi, env.estimate)
    {
      var df := Copy();
      df.SetColumn(treatment, xi);
      var x :- Select(df.data, [treatment] + confounders);
      var scores :- PredictWith(m, x, env);
      if |scores| != |df.data.rows| {
        return Err(LengthMismatch(|df.data.rows|, |scores|));
      }
      r := Ok(Mean(scores));
    }

    /** The averaging loop of `_line_zplot` and `_mean_zplot`. */
    method SweepLoop(m: Model, treatment: string, confounders: seq<string>, xs: seq<real>, env: Backends)
      returns (r: Result<seq<Option<real>>>)
      ensures r == Sweep(data, treatment, confounders, View(m), xs, env.estimate)
    {
      ghost var steps := Averages(data, treatment, confounders, View(m), xs, env.estimate);
      var ys: seq<Option<real>> := [];
      var i := 0;
      while i < |xs|
        invariant 0 <= i <= |xs|
        invariant Collect(steps[..i]) == Ok(ys)
      {
        var y := MarginalMeanAt(m, treatment, confounders, xs[i], env);
        assert steps[..i + 1][..i] == steps[..i];
        if y.Err? {
          CollectStopsAtFailure(steps, i + 1);
          return Err(y.error);
        }
        ys := ys + [y.value];
        i := i + 1;
      }
      assert steps[..i] == steps;
      r := Ok(ys);
    }

    /** `_line_zplot`, over the given grid of treatment values. */
    method LineZplot(kw: Options, env: Backends, grid: seq<real>) returns (r: Result<Plot>)
      ensures r == LinePlot(data, kw, env, grid)
    {
      var got :- GetModel(kw, env);
      var opts := Strip(kw, got.1);
      var treatment :- ColumnName(opts, "x");
      var z := Confounders(opts).value;
      if treatment !in data.columns {
        return Err(MissingColumn(treatment));
      }
      var ys :- SweepLoop(got.0, treatment, Keys(z), grid, env);
      if "z" !in opts {
        return Err(MissingKey("z"));
      }
      r := Ok(Plot(Curve(grid, ys), opts - {"z"}));
    }

    /** `_mean_zplot` */
    method MeanZplot(kw: Options, env: Backends) returns (r: Result<Plot>)
      ensures r == MeanPlot(data, kw, env)
    {
      var got :- GetModel(kw, env);
      var opts := Strip(kw, got.1);
      var treatment :- ColumnName(opts, "x");
      var column :- Column(data, treatment);
      var xs := Unique(column);
      var z := Confounders(opts).value;
      var ys :- SweepLoop(got.0, treatment, Keys(z), xs, env);
      if "z" !in opts {
        return Err(MissingKey("z"));
      }
      r := Ok(Plot(Curve(xs, ys), (opts - {"z"})["kind" := VStr("bar")]));
    }

    /** The inner `f` of `_bootstrapped_mean_zplot` on one resample: the
        model is selected and fit on this frame, and the resample's
        treatment column is overwritten in place. */
    method Draw(sample: CausalDataFrame, kw: Options, env: Backends) returns (r: Result<Option<real>>)
      requires sample != this
      modifies sample
      ensures r == DrawSpec(data, old(sample.data), kw, env)
      ensures if ModelSpec(data, kw, env).Ok? && ColumnName(kw, "x").Ok? && TreatmentValue(kw).Ok?
              then sample.data == Overwrite(old(sample.data), kw["x"].s, kw["xi"].r)
              else sample.data == old(sample.data)
    {
      var got :- GetModel(kw, env);
      var treatment :- ColumnName(kw, "x");
      var z := Confounders(kw).value;
      var xi :- TreatmentValue(kw);
      sample.SetColumn(treatment, xi);
      var x :- Select(sample.data, [treatment] + Keys(z));
      var scores :- PredictWith(got.0, x, env);
      if |scores| != |sample.data.rows| {
        return Err(LengthMismatch(|sample.data.rows|, |scores|));
      }
      r := Ok(Mean(scores));
    }

    /** `_bootstrap_statistic`: `bootstrap_samples` draws, each on a fresh
        resample of `df` with as many rows as `df`. */
    method BootstrapStatistic(df: CausalDataFrame, kw: Options, env: Backends, pick: Sampler, i: nat)
      returns (r: Result<seq<Option<real>>>)
      requires df != this && Draws(pick, |df.data.rows|)
      ensures r == StatisticSpec(data, df.data, kw, env, pick, i)
    {
      var count :- DrawCount(kw);
      ghost var steps := DrawResults(data, df.data, kw, env, pick, i, count);
      var samples: seq<Option<real>> := [];
      var d := 0;
      while d < count
        invariant 0 <= d <= count
        invariant Collect(steps[..d]) == Ok(samples)
      {
        var s := df.Sample(|df.data.rows|, pick, i, d);
        var y := Draw(s, kw, env);
        assert steps[..d + 1][..d] == steps[..d];
        if y.Err? {
          CollectStopsAtFailure(steps, d + 1);
          return Err(y.error);
        }
        samples := samples + [y.value];
        d := d + 1;
      }
      assert steps[..d] == steps;
      r := Ok(samples);
    }

    /** The loop of `_bootstrapped_mean_zplot`: for each treatment value,
        `kwargs['xi'] = xi` and the summary of the draws on `df`. */
    method SummaryLoop(df: CausalDataFrame, opts: Options, env: Backends, quantile: Quantile, pick: Sampler,
                       xs: seq<real>)
      returns (r: Result<seq<Option<Interval>>>, cur: Options)
      requires df != this && df.data == data && Draws(pick, |data.rows|)
      ensures r == Collect(PointSummaries(data, opts, env, quantile, pick, xs))
      ensures r.Ok? ==> cur == AfterLoop(opts, xs)
    {
      ghost var steps := PointSummaries(data, opts, env, quantile, pick, xs);
      cur := opts;
      var stats: seq<Option<Interval>> := [];
      var i := 0;
      while i < |xs|
        invariant 0 <= i <= |xs|
        invariant cur == AfterLoop(opts, xs[..i])
        invariant Collect(steps[..i]) == Ok(stats)
      {
        cur := cur["xi" := VReal(xs[i])];
        assert cur == opts["xi" := VReal(xs[i])];
        var samples := BootstrapStatistic(df, cur, env, pick, i);
        assert steps[..i + 1][..i] == steps[..i];
        if samples.Err? {
          CollectStopsAtFailure(steps, i + 1);
          return Err(samples.error), cur;
        }
        stats := stats + [Summary(samples.value, quantile)];
        i := i + 1;
      }
      assert xs[..i] == xs && steps[..i] == steps;
      r := Ok(stats);
    }

    /** `_bootstrapped_mean_zplot` */
    method BootstrappedMeanZplot(kw: Options, env: Backends, quantile: Quantile, pick: Sampler) returns (r: Result<Plot>)
      requires Draws(pick, |data.rows|)
      ensures r == BootstrappedMeanPlot(data, kw, env, quantile, pick)
    {
      var got :- GetModel(kw, env);
      var opts := Strip(kw, got.1);
      var treatment :- ColumnName(opts, "x");
      var column :- Column(data, treatment);
      var xs := Unique(column);
      var df := Copy();
      var stats, cur := SummaryLoop(df, opts, env, quantile, pick, xs);
      if stats.Err? {
        return Err(stats.error);
      }
      if "xi" !in cur {
        return Err(MissingKey("xi"));
      }
      if "z" !in cur {
        return Err(MissingKey("z"));
      }
      if "bootstrap_samples" !in cur {
        return Err(MissingKey("bootstrap_samples"));
      }
      r := Ok(Plot(Bars(xs, stats.value), (cur - {"xi", "z", "bootstrap_samples"})["kind" := VStr("bar")]["yerr" := VErrorBars]));
    }

    /** `zplot` */
    method Zplot(kw: Options, env: Backends, grid: seq<real>, quantile: Quantile, pick: Sampler)
      returns (r: Result<Option<Plot>>)
      requires Draws(pick, |data.rows|)
      ensures r == ZplotResult(data, kw, env, grid, quantile, pick)
    {
      match RouteOf(kw)
      case ToPlot =>
        r := Ok(Some(Plot(WholeFrame, kw - {"z"})));
      case ToLine =>
        var p :- LineZplot(kw, env, grid);
        r := Ok(Some(p));
      case ToBar =>
        r := Err(UndefinedMethod("_bar_zplot"));
      case ToMean =>
        var p :- MeanZplot(kw, env);
        r := Ok(Some(p));
      case ToBootstrappedMean =>
        var p :- BootstrappedMeanZplot(kw, env, quantile, pick);
        r := Ok(Some(p));
      case ToNothing =>
        r := Ok(None);
    }
  }
}
