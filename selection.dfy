/** Model selection (`_get_model`): which regression backend the options
    select, how it is fit on the frame, and which option key is consumed.
    The backends themselves are opaque fit/predict functions. */
module Selection {
  import opened Values
  import opened Frames
  import opened Kernel

  /** A fitted model's `predict`: one prediction per row is expected, but
      nothing forces it. */
  type Predictor = Matrix -> seq<real>

  /** The external regression libraries. */
  datatype Backends = Backends(
    fitClass: (nat, Matrix, seq<real>) -> Predictor,  // instantiate a model class, then `.fit(X, y)`
    instance: nat -> Predictor,                       // a caller's already fitted model
    fitForest: (Matrix, seq<real>) -> Predictor,      // `RandomForestRegressor()` then `.fit(X, y)`
    estimate: Estimate)                               // `KernelReg.fit(X)[0]`

  /** One tag per backend. */
  datatype Choice = UserClass(cls: Value) | UserFitted(instance: Value) | KernelBackend | DefaultForest

  function KeyOf(c: Choice): Option<string> {
    match c
    case UserClass(_) => Some("model")
    case UserFitted(_) => Some("fit_model")
    case KernelBackend => Some("model_type")
    case DefaultForest => None
  }

  /** The first-match precedence of `_get_model`: `model`, then `fit_model`,
      then `model_type == 'kernel'`, then the default; with the option key
      that won, or None for the default. */
  function Choose(kw: Options): (c: (Choice, Option<string>))
    ensures c.1 == KeyOf(c.0)
    ensures c.1 == Some("model") <==> Truthy(Get(kw, "model", VNone))
    ensures c.1 == Some("fit_model") <==>
      !Truthy(Get(kw, "model", VNone)) && Truthy(Get(kw, "fit_model", VNone))
    ensures c.1 == Some("model_type") <==>
      !Truthy(Get(kw, "model", VNone)) && !Truthy(Get(kw, "fit_model", VNone))
      && Get(kw, "model_type", VStr("")) == VStr("kernel")
    ensures c.1.Some? ==> c.1.value in kw
    ensures c.0.UserClass? ==> c.0.cls == kw["model"]
    ensures c.0.UserFitted? ==> c.0.instance == kw["fit_model"]
  {
    if Truthy(Get(kw, "model", VNone)) then (UserClass(kw["model"]), Some("model"))
    else if Truthy(Get(kw, "fit_model", VNone)) then (UserFitted(kw["fit_model"]), Some("fit_model"))
    else if Get(kw, "model_type", VStr("")) == VStr("kernel") then (KernelBackend, Some("model_type"))
    else (DefaultForest, None)
  }

  /** A `model_type` other than 'kernel' selects nothing and is never stripped. */
  lemma OtherModelTypeKept(kw: Options)
    requires Get(kw, "model_type", VStr("")) != VStr("kernel")
    ensures Choose(kw).1 != Some("model_type")
    ensures "model_type" in kw ==> "model_type" in Strip(kw, Choose(kw).1)
  {
  }

  /** Selecting again from the options with the winning key deleted yields
      the next backend in line: never the one that won, and the default once
      no other selecting key remains. */
  lemma ReselectionAfterStrip(kw: Options)
    ensures var key := Choose(kw).1; var again := Choose(Strip(kw, key)).0;
      match Choose(kw).0
      case UserClass(_) =>
        again == (if Truthy(Get(kw, "fit_model", VNone)) then UserFitted(kw["fit_model"])
                  else if Get(kw, "model_type", VStr("")) == VStr("kernel") then KernelBackend
                  else DefaultForest)
      case UserFitted(_) =>
        again == (if Get(kw, "model_type", VStr("")) == VStr("kernel") then KernelBackend else DefaultForest)
      case KernelBackend => again == DefaultForest
      case DefaultForest => again == DefaultForest
  {
    var key := Choose(kw).1;
    var s := Strip(kw, key);
    assert forall k :: k in s && key != Some(k) ==> Get(s, k, VNone) == Get(kw, k, VNone);
    match Choose(kw).0
    case UserClass(_) =>
      assert Get(s, "model", VNone) == VNone;
    case UserFitted(_) =>
      assert Get(s, "fit_model", VNone) == VNone;
    case KernelBackend =>
      assert Get(s, "model_type", VStr("")) == VStr("");
    case DefaultForest =>
  }

  /** The value view of a fitted model. */
  datatype Fitted =
    | Opaque(predict: Predictor)
    | NotAModel                  // a `fit_model` that has no `predict`
    | KernelState(estimator: Option<KernelReg>, xShape: Option<Shape>)

  /** `model.predict(X)` */
  function Prediction(m: Fitted, x: Matrix, estimate: Estimate): (r: Result<seq<real>>)
    ensures m.KernelState? ==> (r.Ok? <==> m.xShape == Some(ShapeOf(x)) && m.estimator.Some?)
    ensures m.KernelState? && m.xShape != Some(ShapeOf(x)) ==> r == Err(ShapeMismatch(m.xShape, ShapeOf(x)))
    ensures m.KernelState? && r.Ok? ==> r.value == estimate(m.estimator.value, x)
    ensures m.Opaque? ==> r == Ok(m.predict(x))
    ensures m.NotAModel? ==> r.Err?
  {
    match m
    case Opaque(p) => Ok(p(x))
    case NotAModel => Err(WrongType("fit_model"))
    case KernelState(e, sh) =>
      if sh != Some(ShapeOf(x)) then Err(ShapeMismatch(sh, ShapeOf(x)))
      else if e.None? then Err(NoEstimator)
      else Ok(estimate(e.value, x))
  }

  /** `self[[treatment] + confounders]` and `self[outcome]`, in that order. */
  function Training(f: Frame, kw: Options, z: Tags): (r: Result<(Matrix, seq<real>)>)
    ensures r.Ok? <==> && ColumnName(kw, "x").Ok? && ColumnName(kw, "y").Ok?
                       && Select(f, [kw["x"].s] + Keys(z)).Ok? && Column(f, kw["y"].s).Ok?
    ensures r.Ok? ==> r.value.0 == Select(f, [kw["x"].s] + Keys(z)).value && r.value.1 == Column(f, kw["y"].s).value
    ensures r.Ok? ==> r.value.0.columns == [kw["x"].s] + Keys(z)
    ensures r.Ok? ==> |r.value.0.rows| == |f.rows| && |r.value.1| == |f.rows|
  {
    var treatment :- ColumnName(kw, "x");
    var x :- Select(f, [treatment] + Keys(z));
    var outcome :- ColumnName(kw, "y");
    var y :- Column(f, outcome);
    Ok((x, y))
  }

  /** `_get_model`: the selected backend fit on the frame, and the key to
      strip. A model class is called, then fit; a fitted instance is used as
      it is; the kernel wrapper is fit with the types of `z` and 'c' for the
      treatment; the default is a random forest. */
  function ModelSpec(f: Frame, kw: Options, env: Backends): (r: Result<(Fitted, Option<string>)>)
    ensures r.Ok? ==> r.value.1 == Choose(kw).1 && Confounders(kw).Ok?
    ensures Choose(kw).0.UserFitted? ==>
      r == if Confounders(kw).Err? then Err(Confounders(kw).error)
           else Ok((if kw["fit_model"].VModel? then Opaque(env.instance(kw["fit_model"].id)) else NotAModel,
                    Some("fit_model")))
    ensures r.Ok? && Choose(kw).0.UserClass? ==>
      && kw["model"].VClass? && Training(f, kw, Confounders(kw).value).Ok?
      && r.value.0 == Opaque(env.fitClass(kw["model"].cls, Training(f, kw, Confounders(kw).value).value.0,
                                          Training(f, kw, Confounders(kw).value).value.1))
    ensures r.Ok? && Choose(kw).0 == DefaultForest ==>
      && Training(f, kw, Confounders(kw).value).Ok?
      && r.value.0 == Opaque(env.fitForest(Training(f, kw, Confounders(kw).value).value.0,
                                           Training(f, kw, Confounders(kw).value).value.1))
    ensures r.Ok? && Choose(kw).0 == KernelBackend ==>
      && Confounders(kw).Ok? && "x" in kw && kw["x"].VStr?
      && r.value.0.KernelState? && r.value.0.estimator.Some?
      && r.value.0.xShape == Some(Shape(|f.rows|, 1 + |Confounders(kw).value|))
  {
    var z :- Confounders(kw);
    var choice := Choose(kw);
    match choice.0
    case UserFitted(v) =>
      Ok((if v.VModel? then Opaque(env.instance(v.id)) else NotAModel, choice.1))
    case UserClass(v) =>
      if !v.VClass? then Err(WrongType("model"))
      else
        var data :- Training(f, kw, z);
        Ok((Opaque(env.fitClass(v.cls, data.0, data.1)), choice.1))
    case KernelBackend =>
      var data :- Training(f, kw, z);
      var s :- TypeString(Assign(z, kw["x"].s, "c"), data.0.columns);
      Ok((KernelState(Some(KernelReg(data.1, data.0, s, "ll")), Some(ShapeOf(data.0))), choice.1))
    case DefaultForest =>
      var data :- Training(f, kw, z);
      Ok((Opaque(env.fitForest(data.0, data.1)), choice.1))
  }

  /** When `_get_model` succeeds: with `z` a dict, a fitted instance is always
      accepted, and every other backend is fit exactly when the training
      columns can be looked up (a `model` that is not a class fails first). */
  lemma ModelSpecSucceeds(f: Frame, kw: Options, env: Backends)
    ensures Confounders(kw).Err? ==> ModelSpec(f, kw, env) == Err(Confounders(kw).error)
    ensures Confounders(kw).Ok? && Choose(kw).0.UserFitted? ==> ModelSpec(f, kw, env).Ok?
    ensures Confounders(kw).Ok? && Choose(kw).0.UserClass? && !kw["model"].VClass? ==>
      ModelSpec(f, kw, env) == Err(WrongType("model"))
    ensures Confounders(kw).Ok? && !Choose(kw).0.UserFitted? && (Choose(kw).0.UserClass? ==> kw["model"].VClass?) ==>
      (ModelSpec(f, kw, env).Ok? <==> Training(f, kw, Confounders(kw).value).Ok?)
  {
    if Confounders(kw).Ok? && Choose(kw).0 == KernelBackend && Training(f, kw, Confounders(kw).value).Ok? {
      KernelFitIsTyped(Confounders(kw).value, kw["x"].s);
    }
  }

  /** The kernel estimator `_get_model` builds is the local-linear regression
      of the outcome column on `self[[treatment] + confounders]`, with the
      type string of `z` and 'c' for the treatment. */
  lemma KernelEstimatorData(f: Frame, kw: Options, env: Backends)
    requires ModelSpec(f, kw, env).Ok? && Choose(kw).0 == KernelBackend
    ensures Confounders(kw).Ok? && Training(f, kw, Confounders(kw).value).Ok?
    ensures TypeString(Assign(Confounders(kw).value, kw["x"].s, "c"), [kw["x"].s] + Keys(Confounders(kw).value)).Ok?
    ensures var z := Confounders(kw).value; var t := Training(f, kw, z).value;
      ModelSpec(f, kw, env).value.0.estimator
        == Some(KernelReg(t.1, t.0, TypeString(Assign(z, kw["x"].s, "c"), [kw["x"].s] + Keys(z)).value, "ll"))
  {
    KernelFitIsTyped(Confounders(kw).value, kw["x"].s);
  }

  /** Every column `_get_model` passes to the kernel fit has a type, so that
      fit never fails on a missing tag. */
  lemma KernelFitIsTyped(z: Tags, treatment: string)
    ensures TypeString(Assign(z, treatment, "c"), [treatment] + Keys(z)).Ok?
  {
    var vt := Assign(z, treatment, "c");
    assert treatment in Keys(vt);
    forall c | c in [treatment] + Keys(z) ensures c in Keys(vt) {
    }
  }

  /** The kernel estimator `_get_model` builds has one type character per
      column of `[treatment] + confounders` (when the tags are single
      characters), 'c' for the treatment even if `z` tags it otherwise. */
  lemma KernelSelectionTypeString(f: Frame, kw: Options, env: Backends)
    requires Choose(kw).0 == KernelBackend && ModelSpec(f, kw, env).Ok?
    requires Confounders(kw).Ok?
    requires forall k :: 0 <= k < |Confounders(kw).value| ==> |Confounders(kw).value[k].1| == 1
    ensures var z := Confounders(kw).value;
      var s := ModelSpec(f, kw, env).value.0.estimator.value.varType;
      && |s| == 1 + |z| && s[0] == 'c'
      && forall k :: 0 <= k < |z| ==> s[k + 1] == if z[k].0 == kw["x"].s then 'c' else z[k].1[0]
  {
    KernelTypeStringPerColumn(Confounders(kw).value, kw["x"].s);
  }

  /** For tags of any length, the kernel estimator's type string is 'c' for
      the treatment, then the tags of `z` in order, 'c' for a confounder that
      is the treatment. */
  lemma KernelSelectionTags(f: Frame, kw: Options, env: Backends)
    requires Choose(kw).0 == KernelBackend && ModelSpec(f, kw, env).Ok?
    ensures Confounders(kw).Ok? && "x" in kw && kw["x"].VStr?
    ensures ModelSpec(f, kw, env).value.0.estimator.value.varType == "c" + Tagged(Confounders(kw).value, kw["x"].s)
  {
    KernelEstimatorData(f, kw, env);
    KernelTypeStringJoined(Confounders(kw).value, kw["x"].s);
  }

  /** A backend as the running code holds it: a value, or the kernel wrapper
      object with its recorded state. */
  datatype Model = Held(fitted: Fitted) | Wrapped(wrapper: KernelModelWrapper)

  function Footprint(m: Model): set<object> {
    if m.Wrapped? then {m.wrapper} else {}
  }

  function View(m: Model): Fitted
    reads Footprint(m)
  {
    match m
    case Held(v) => v
    case Wrapped(w) => KernelState(w.model, w.xShape)
  }

  /** `model.predict(X)` on a held model. */
  method PredictWith(m: Model, x: Matrix, env: Backends) returns (r: Result<seq<real>>)
    ensures r == Prediction(View(m), x, env.estimate)
  {
    match m
    case Held(v) =>
      r := Prediction(v, x, env.estimate);
    case Wrapped(w) =>
      r := w.Predict(x, env.estimate);
  }
}
