/** The estimation algorithms: the marginal average of the predictions with
    the treatment held at one value, the sweep of that average over a
    sequence of treatment values, and the bootstrap of the average. */
module Effects {
  import opened Values
  import opened Frames
  import opened Kernel
  import opened Selection

  /** One treatment value: copy the rows, overwrite the treatment column
      with `xi`, score the columns `[treatment] + confounders`, average the
      scores over the rows (None for the NaN mean of no rows). */
  function MarginalMean(f: Frame, treatment: string, confounders: seq<string>, m: Fitted, xi: real,
                        estimate: Estimate): (r: Result<Option<real>>)
    ensures r.Ok? ==> (r.value.Some? <==> |f.rows| > 0)
  {
    var df := Overwrite(f, treatment, xi);
    var x :- Select(df, [treatment] + confounders);
    var scores :- Prediction(m, x, estimate);
    if |scores| != |df.rows| then Err(LengthMismatch(|df.rows|, |scores|))
    else Ok(Mean(scores))
  }

  /** The predictor sees every row of the frame, with the treatment column
      set to `xi` and the confounders as they are, and the result is the
      mean of its scores. */
  lemma MarginalMeanAveragesOverRows(f: Frame, treatment: string, confounders: seq<string>, m: Fitted,
                                     xi: real, estimate: Estimate)
    requires MarginalMean(f, treatment, confounders, m, xi, estimate).Ok?
    ensures Select(Overwrite(f, treatment, xi), [treatment] + confounders).Ok?
    ensures var x := Select(Overwrite(f, treatment, xi), [treatment] + confounders).value;
      && |x.rows| == |f.rows|
      && (forall r :: 0 <= r < |f.rows| ==> x.rows[r][0] == xi)
      && (forall r, j :: 0 <= r < |f.rows| && 0 <= j < |confounders| && confounders[j] != treatment ==>
            confounders[j] in f.rows[r] && x.rows[r][j + 1] == f.rows[r][confounders[j]])
      && Prediction(m, x, estimate).Ok?
      && |Prediction(m, x, estimate).value| == |f.rows|
      && MarginalMean(f, treatment, confounders, m, xi, estimate).value == Mean(Prediction(m, x, estimate).value)
  {
    var df := Overwrite(f, treatment, xi);
    var cols := [treatment] + confounders;
    var x := Select(df, cols).value;
    forall r, j | 0 <= r < |f.rows| && 0 <= j < |confounders| && confounders[j] != treatment
      ensures confounders[j] in f.rows[r] && x.rows[r][j + 1] == f.rows[r][confounders[j]]
    {
      assert cols[j + 1] == confounders[j];
      assert df.rows[r] == f.rows[r][treatment := xi];
    }
    forall r | 0 <= r < |f.rows| ensures x.rows[r][0] == xi {
      assert cols[0] == treatment;
      assert df.rows[r] == f.rows[r][treatment := xi];
    }
  }

  /** When one marginal average exists: every confounder is a column (or the
      treatment, which the overwrite adds), the model predicts on the
      selection, and it returns one score per row. Otherwise the error is
      the selection's KeyError, the model's own error, or the length clash. */
  lemma MarginalMeanSucceeds(f: Frame, treatment: string, confounders: seq<string>, m: Fitted, xi: real,
                             estimate: Estimate)
    ensures var x := Select(Overwrite(f, treatment, xi), [treatment] + confounders);
      x.Ok? <==> forall c :: c in confounders ==> c in f.columns || c == treatment
    ensures var x := Select(Overwrite(f, treatment, xi), [treatment] + confounders);
      var r := MarginalMean(f, treatment, confounders, m, xi, estimate);
      && (r.Ok? <==> x.Ok? && Prediction(m, x.value, estimate).Ok?
                     && |Prediction(m, x.value, estimate).value| == |f.rows|)
      && (x.Err? ==> r == Err(x.error))
      && (x.Ok? && Prediction(m, x.value, estimate).Err? ==> r == Err(Prediction(m, x.value, estimate).error))
      && (x.Ok? && Prediction(m, x.value, estimate).Ok? && |Prediction(m, x.value, estimate).value| != |f.rows| ==>
            r == Err(LengthMismatch(|f.rows|, |Prediction(m, x.value, estimate).value|)))
  {
    var cols := [treatment] + confounders;
    assert forall c :: c in cols <==> c == treatment || c in confounders;
  }

  /** The kernel backend `_get_model` fits always accepts the matrix of the
      marginal average: the overwritten copy has the rows and the columns the
      wrapper was fit with, so the shape check of `predict` never fires on
      the mean and line paths. */
  lemma KernelPredictsOnOverwrite(f: Frame, kw: Options, env: Backends, xi: real)
    requires Choose(kw).0 == KernelBackend && ModelSpec(f, kw, env).Ok?
    ensures Confounders(kw).Ok? && "x" in kw && kw["x"].VStr?
    ensures var x := Select(Overwrite(f, kw["x"].s, xi), [kw["x"].s] + Keys(Confounders(kw).value));
      x.Ok? && Prediction(ModelSpec(f, kw, env).value.0, x.value, env.estimate).Ok?
  {
    KernelEstimatorData(f, kw, env);
    var z := Confounders(kw).value;
    var cols := [kw["x"].s] + Keys(z);
    assert Select(f, cols).Ok?;
    assert forall c :: c in cols ==> c in Overwrite(f, kw["x"].s, xi).columns;
  }

  /** A loop that appends the value of each step and stops at the first
      step that fails, with that step's error. */
  function Collect<T>(steps: seq<Result<T>>): Result<seq<T>> {
    if steps == [] then Ok([])
    else
      var init :- Collect(steps[..|steps| - 1]);
      var last :- steps[|steps| - 1];
      Ok(init + [last])
  }

  /** A loop that succeeds keeps the value of every step, in order. */
  lemma {:induction false} CollectPointwise<T>(steps: seq<Result<T>>)
    requires Collect(steps).Ok?
    ensures |Collect(steps).value| == |steps|
    ensures forall i :: 0 <= i < |steps| ==> steps[i] == Ok(Collect(steps).value[i])
  {
    if steps != [] {
      var p := steps[..|steps| - 1];
      CollectPointwise(p);
      forall i | 0 <= i < |p| ensures steps[i] == p[i] { }
    }
  }

  /** A loop whose every step succeeds succeeds. */
  lemma {:induction false} CollectSucceeds<T>(steps: seq<Result<T>>)
    requires forall i :: 0 <= i < |steps| ==> steps[i].Ok?
    ensures Collect(steps).Ok?
  {
    if steps != [] {
      var p := steps[..|steps| - 1];
      forall i | 0 <= i < |p| ensures p[i].Ok? {
        assert p[i] == steps[i];
      }
      CollectSucceeds(p);
    }
  }

  /** A loop that fails fails with the error of its first failing step. */
  lemma {:induction false} CollectFailsAtFirstFailure<T>(steps: seq<Result<T>>, i: nat)
    requires i < |steps| && steps[i].Err? && forall k :: 0 <= k < i ==> steps[k].Ok?
    ensures Collect(steps) == Err(steps[i].error)
  {
    var p := steps[..|steps| - 1];
    if i < |p| {
      assert p[i] == steps[i];
      forall k | 0 <= k < i ensures p[k].Ok? {
        assert p[k] == steps[k];
      }
      CollectFailsAtFirstFailure(p, i);
    } else {
      forall k | 0 <= k < |p| ensures p[k].Ok? {
        assert p[k] == steps[k];
      }
      CollectSucceeds(p);
    }
  }

  /** A failure within the first `i` steps ends the loop there. */
  lemma {:induction false} CollectStopsAtFailure<T>(steps: seq<Result<T>>, i: nat)
    requires i <= |steps| && Collect(steps[..i]).Err?
    ensures Collect(steps) == Collect(steps[..i])
  {
    if i < |steps| {
      var p := steps[..|steps| - 1];
      assert p[..i] == steps[..i];
      CollectStopsAtFailure(p, i);
    } else {
      assert steps[..i] == steps;
    }
  }

  /** The average at each swept value. */
  function Averages(f: Frame, treatment: string, confounders: seq<string>, m: Fitted, xs: seq<real>,
                    estimate: Estimate): (r: seq<Result<Option<real>>>)
    ensures |r| == |xs|
    ensures forall k :: 0 <= k < |xs| ==> r[k] == MarginalMean(f, treatment, confounders, m, xs[k], estimate)
  {
    seq(|xs|, k requires 0 <= k < |xs| => MarginalMean(f, treatment, confounders, m, xs[k], estimate))
  }

  /** The loop over the swept values: one average per value, in sweep order;
      the first failure ends it. */
  function Sweep(f: Frame, treatment: string, confounders: seq<string>, m: Fitted, xs: seq<real>,
                 estimate: Estimate): Result<seq<Option<real>>>
  {
    Collect(Averages(f, treatment, confounders, m, xs, estimate))
  }

  /** A sweep that succeeds has exactly one point per swept value, the
      marginal average at that value. */
  lemma SweepPointwise(f: Frame, treatment: string, confounders: seq<string>, m: Fitted,
                       xs: seq<real>, estimate: Estimate)
    requires Sweep(f, treatment, confounders, m, xs, estimate).Ok?
    ensures var ys := Sweep(f, treatment, confounders, m, xs, estimate).value;
      && |ys| == |xs|
      && forall i :: 0 <= i < |xs| ==> MarginalMean(f, treatment, confounders, m, xs[i], estimate) == Ok(ys[i])
  {
    CollectPointwise(Averages(f, treatment, confounders, m, xs, estimate));
  }

  /** A sweep succeeds when the average at every value does. */
  lemma SweepSucceeds(f: Frame, treatment: string, confounders: seq<string>, m: Fitted,
                      xs: seq<real>, estimate: Estimate)
    requires forall i :: 0 <= i < |xs| ==> MarginalMean(f, treatment, confounders, m, xs[i], estimate).Ok?
    ensures Sweep(f, treatment, confounders, m, xs, estimate).Ok?
  {
    CollectSucceeds(Averages(f, treatment, confounders, m, xs, estimate));
  }

  /** The inner `f` of the bootstrapped path, run on one resample: select
      and fit a model on the whole frame from the options it is given, set
      the treatment of the resample to `kwargs['xi']`, and average the
      scores. */
  function DrawSpec(f: Frame, sample: Frame, kw: Options, env: Backends): Result<Option<real>> {
    var got :- ModelSpec(f, kw, env);
    var treatment :- ColumnName(kw, "x");
    var z := Confounders(kw).value;
    var xi :- TreatmentValue(kw);
    MarginalMean(sample, treatment, Keys(z), got.0, xi, env.estimate)
  }

  /** The draw at each of the first `k` positions of the sampling loop,
      each on a same-size resample of `df` taken by the resampler. */
  function DrawResults(f: Frame, df: Frame, kw: Options, env: Backends, pick: Sampler, i: nat, k: nat):
    (r: seq<Result<Option<real>>>)
    requires Draws(pick, |df.rows|)
    ensures |r| == k
    ensures forall d :: 0 <= d < k ==> r[d] == DrawSpec(f, Resample(df, |df.rows|, pick, i, d), kw, env)
  {
    seq(k, d requires 0 <= d < k => DrawSpec(f, Resample(df, |df.rows|, pick, i, d), kw, env))
  }

  /** `_bootstrap_statistic`: `bootstrap_samples` draws. */
  function StatisticSpec(f: Frame, df: Frame, kw: Options, env: Backends, pick: Sampler, i: nat):
    Result<seq<Option<real>>>
    requires Draws(pick, |df.rows|)
  {
    var count :- DrawCount(kw);
    Collect(DrawResults(f, df, kw, env, pick, i, count))
  }

  /** `_bootstrap_statistic` collects exactly `bootstrap_samples` draws (none
      for a negative count), each the average over a resample with as many
      rows as `df`. */
  lemma StatisticDraws(f: Frame, df: Frame, kw: Options, env: Backends, pick: Sampler, i: nat)
    requires Draws(pick, |df.rows|) && StatisticSpec(f, df, kw, env, pick, i).Ok?
    ensures DrawCount(kw).Ok?
    ensures var s := StatisticSpec(f, df, kw, env, pick, i).value;
      && |s| == DrawCount(kw).value
      && forall d :: 0 <= d < |s| ==>
           |Resample(df, |df.rows|, pick, i, d).rows| == |df.rows|
           && DrawSpec(f, Resample(df, |df.rows|, pick, i, d), kw, env) == Ok(s[d])
  {
    CollectPointwise(DrawResults(f, df, kw, env, pick, i, DrawCount(kw).value));
  }

  /** The draws that are numbers (pandas skips NaN). */
  function Present(s: seq<Option<real>>): (r: seq<real>)
    ensures |r| <= |s|
    ensures (forall k :: 0 <= k < |s| ==> s[k].Some?) ==>
      |r| == |s| && forall k :: 0 <= k < |s| ==> r[k] == s[k].value
  {
    if s == [] then []
    else if s[|s| - 1].Some? then Present(s[..|s| - 1]) + [s[|s| - 1].value]
    else Present(s[..|s| - 1])
  }

  /** The numbers kept are exactly the numbers drawn, each as often as it
      was drawn, whatever else is NaN. */
  lemma {:induction false} PresentKeepsNumbers(s: seq<Option<real>>)
    ensures forall v :: multiset(Present(s))[v] == multiset(s)[Some(v)]
    ensures forall v :: v in Present(s) <==> Some(v) in s
  {
    if s != [] {
      var init := s[..|s| - 1];
      var last := s[|s| - 1];
      PresentKeepsNumbers(init);
      assert s == init + [last];
      assert multiset(s) == multiset(init) + multiset{last};
      if last.Some? {
        assert Present(s) == Present(init) + [last.value];
        assert multiset(Present(s)) == multiset(Present(init)) + multiset{last.value};
      } else {
        assert Present(s) == Present(init);
      }
      forall v ensures v in Present(s) <==> Some(v) in s {
        assert v in Present(s) <==> multiset(Present(s))[v] > 0;
        assert Some(v) in s <==> multiset(s)[Some(v)] > 0;
      }
    }
  }

  /** The point estimate and the distances to the 2.5th and 97.5th
      percentiles of the draws. */
  datatype Interval = Interval(expected: real, lower: real, upper: real)

  /** `Series.quantile(q)` of a non-empty series. */
  type Quantile = (seq<real>, real) -> real

  ghost predicate Monotone(quantile: Quantile) {
    forall s: seq<real>, p: real, q: real :: s != [] && 0.0 <= p <= q <= 1.0 ==> quantile(s, p) <= quantile(s, q)
  }

  /** `exp = yi.mean()`, `lower = exp - q(0.025)`, `upper = q(0.975) - exp`;
      all NaN (None) without draws. */
  function Summary(samples: seq<Option<real>>, quantile: Quantile): (r: Option<Interval>)
    ensures r.None? <==> Present(samples) == []
    ensures r.Some? ==> Mean(Present(samples)) == Some(r.value.expected)
    ensures r.Some? ==> r.value.lower == r.value.expected - quantile(Present(samples), 0.025)
    ensures r.Some? ==> r.value.upper == quantile(Present(samples), 0.975) - r.value.expected
  {
    var s := Present(samples);
    if s == [] then None
    else
      var e := Sum(s) / (|s| as real);
      Some(Interval(e, e - quantile(s, 0.025), quantile(s, 0.975) - e))
  }

  /** The two deltas add up to the width of the percentile interval, which
      a monotone quantile makes non-negative; each delta alone may be negative. */
  lemma IntervalWidth(samples: seq<Option<real>>, quantile: Quantile)
    requires Summary(samples, quantile).Some?
    ensures var iv := Summary(samples, quantile).value;
      iv.lower + iv.upper == quantile(Present(samples), 0.975) - quantile(Present(samples), 0.025)
    ensures Monotone(quantile) ==> Summary(samples, quantile).value.lower + Summary(samples, quantile).value.upper >= 0.0
  {
    var s := Present(samples);
    if Monotone(quantile) {
      assert quantile(s, 0.025) <= quantile(s, 0.975);
    }
  }
}
