/** The kernel-regression backend: the wrapper that gives a local-linear
    kernel estimator a fit/predict interface, and the per-column type string
    the estimator is built with. */
module Kernel {
  import opened Values
  import opened Frames

  /** The arguments of `KernelReg(y, X, var_type, reg_type='ll')`; the
      estimator's numerics are opaque. */
  datatype KernelReg = KernelReg(endog: seq<real>, exog: Matrix, varType: string, regType: string)

  /** The local-linear estimate at the points of a matrix, `KernelReg.fit(X)[0]`. */
  type Estimate = (KernelReg, Matrix) -> seq<real>

  /** `c * n` for a one-character string `c`. */
  function Repeat(c: char, n: nat): (s: string)
    ensures |s| == n && forall i :: 0 <= i < n ==> s[i] == c
  {
    if n == 0 then "" else Repeat(c, n - 1) + [c]
  }

  /** `''.join([variable_types[col] for col in cols])`: a KeyError for the
      first column without a tag. */
  function JoinTags(vt: seq<(string, string)>, cols: seq<string>): (r: Result<string>)
    ensures r.Ok? <==> forall c :: c in cols ==> c in Keys(vt)
    ensures r.Err? ==> r.error.MissingKey? && r.error.key in cols && r.error.key !in Keys(vt)
  {
    if cols == [] then Ok("")
    else match Lookup(vt, cols[0])
      case None => assert cols[0] in cols; Err(MissingKey(cols[0]))
      case Some(tag) =>
        var rest := JoinTags(vt, cols[1..]);
        if rest.Err? then assert rest.error.key in cols; Err(rest.error)
        else Ok(tag + rest.value)
  }

  /** The type string `fit` gives the estimator: the joined tags of the
      columns, or 'c' for every column when no types are given. */
  function TypeString(vt: seq<(string, string)>, cols: seq<string>): (r: Result<string>)
    ensures r.Ok? <==> vt == [] || forall c :: c in cols ==> c in Keys(vt)
    ensures r.Err? ==> r.error.MissingKey? && r.error.key in cols && r.error.key !in Keys(vt)
  {
    if vt == [] then Ok(Repeat('c', |cols|)) else JoinTags(vt, cols)
  }

  /** With one-character tags the joined string has one character per
      column, the tag of that column. */
  lemma {:induction false} JoinOneCharTags(vt: seq<(string, string)>, cols: seq<string>)
    requires forall i :: 0 <= i < |cols| ==> Lookup(vt, cols[i]).Some? && |Lookup(vt, cols[i]).value| == 1
    ensures JoinTags(vt, cols).Ok?
    ensures |JoinTags(vt, cols).value| == |cols|
    ensures forall i :: 0 <= i < |cols| ==> JoinTags(vt, cols).value[i] == Lookup(vt, cols[i]).value[0]
  {
    if cols != [] {
      var tail := cols[1..];
      forall i | 0 <= i < |tail| ensures Lookup(vt, tail[i]).Some? && |Lookup(vt, tail[i]).value| == 1 {
        assert tail[i] == cols[i + 1];
      }
      JoinOneCharTags(vt, tail);
      var head := Lookup(vt, cols[0]).value;
      var rest := JoinTags(vt, tail).value;
      assert JoinTags(vt, cols) == Ok(head + rest);
      forall i | 0 <= i < |cols|
        ensures JoinTags(vt, cols).value[i] == Lookup(vt, cols[i]).value[0]
      {
        if i > 0 {
          assert cols[i] == tail[i - 1];
        }
      }
    }
  }

  /** Without types every column is continuous. */
  lemma DefaultTypeString(cols: seq<string>)
    ensures TypeString([], cols).Ok?
    ensures |TypeString([], cols).value| == |cols|
    ensures forall i :: 0 <= i < |cols| ==> TypeString([], cols).value[i] == 'c'
  {
  }

  /** The tag of an entry of `z` after the treatment is set to 'c'. */
  lemma AssignedTagAt(z: Tags, treatment: string, k: nat)
    requires k < |z|
    ensures Lookup(Assign(z, treatment, "c"), z[k].0) == Some(if z[k].0 == treatment then "c" else z[k].1)
  {
    AssignLookup(z, treatment, "c");
    if z[k].0 != treatment {
      assert Lookup(z, z[k].0) == Some(z[k].1);
    }
  }

  /** The types `_get_model` passes (`z` with the treatment forced to 'c'),
      joined over the columns `[treatment] + confounders`: one character per
      column in that order, 'c' for the treatment whatever `z` says of it. */
  lemma KernelTypeStringPerColumn(z: Tags, treatment: string)
    requires forall k :: 0 <= k < |z| ==> |z[k].1| == 1
    ensures var r := TypeString(Assign(z, treatment, "c"), [treatment] + Keys(z));
      && r.Ok? && |r.value| == 1 + |z| && r.value[0] == 'c'
      && forall k :: 0 <= k < |z| ==> r.value[k + 1] == if z[k].0 == treatment then 'c' else z[k].1[0]
  {
    var vt := Assign(z, treatment, "c");
    var cols := [treatment] + Keys(z);
    AssignedTagsOneChar(z, treatment, vt, cols);
    JoinOneCharTags(vt, cols);
    assert vt != [] by {
      assert treatment in Keys(vt);
    }
    var r := JoinTags(vt, cols).value;
    forall k | 0 <= k < |z| ensures r[k + 1] == if z[k].0 == treatment then 'c' else z[k].1[0] {
      assert cols[k + 1] == z[k].0;
      AssignedTagAt(z, treatment, k);
    }
    AssignLookup(z, treatment, "c");
  }

  /** The tags of `z` in its order, concatenated, with 'c' in place of the
      treatment's tag. */
  function Tagged(z: seq<(string, string)>, treatment: string): string {
    if z == [] then "" else (if z[0].0 == treatment then "c" else z[0].1) + Tagged(z[1..], treatment)
  }

  /** Joining the assigned types over the confounders from position `k` on
      gives the remaining tags of `z`, in order. */
  lemma {:induction false} JoinAssignedFrom(z: Tags, treatment: string, k: nat)
    requires k <= |z|
    ensures JoinTags(Assign(z, treatment, "c"), Keys(z)[k..]) == Ok(Tagged(z[k..], treatment))
    decreases |z| - k
  {
    var cols := Keys(z)[k..];
    if k < |z| {
      JoinAssignedFrom(z, treatment, k + 1);
      assert cols[0] == z[k].0 && cols[1..] == Keys(z)[k + 1..];
      AssignedTagAt(z, treatment, k);
      assert z[k..][0] == z[k] && z[k..][1..] == z[k + 1..];
    } else {
      assert cols == [] && z[k..] == [];
    }
  }

  /** For tags of any length, the type string `_get_model` makes is 'c' for
      the treatment followed by the tags of the confounders in `z`'s order,
      'c' for a confounder that is the treatment. */
  lemma KernelTypeStringJoined(z: Tags, treatment: string)
    ensures TypeString(Assign(z, treatment, "c"), [treatment] + Keys(z)) == Ok("c" + Tagged(z, treatment))
  {
    var vt := Assign(z, treatment, "c");
    var cols := [treatment] + Keys(z);
    AssignLookup(z, treatment, "c");
    assert vt != [] by {
      assert treatment in Keys(vt);
    }
    JoinAssignedFrom(z, treatment, 0);
    assert cols[1..] == Keys(z)[0..] && z[0..] == z;
  }

  /** Every column `_get_model` passes has a one-character tag after the
      assignment, when every tag of `z` has one character. */
  lemma AssignedTagsOneChar(z: Tags, treatment: string, vt: seq<(string, string)>, cols: seq<string>)
    requires forall k :: 0 <= k < |z| ==> |z[k].1| == 1
    requires vt == Assign(z, treatment, "c") && cols == [treatment] + Keys(z)
    ensures forall i :: 0 <= i < |cols| ==> Lookup(vt, cols[i]).Some? && |Lookup(vt, cols[i]).value| == 1
  {
    forall i | 0 <= i < |cols| ensures Lookup(vt, cols[i]).Some? && |Lookup(vt, cols[i]).value| == 1 {
      if i == 0 {
        AssignLookup(z, treatment, "c");
      } else {
        assert cols[i] == z[i - 1].0;
        AssignedTagAt(z, treatment, i - 1);
      }
    }
  }

  /** `KernelModelWrapper`: records the shapes it was fit with and refuses
      to predict on any other shape. */
  class KernelModelWrapper {
    var model: Option<KernelReg>
    var variableTypes: Tags
    var xShape: Option<Shape>
    var yShape: Option<nat>

    /** `__init__`: nothing fit yet. */
    constructor ()
      ensures model == None && variableTypes == [] && xShape == None && yShape == None
    {
      model := None;
      variableTypes := [];
      xShape := None;
      yShape := None;
    }

    /** `fit(X, y, variable_types)`: the shapes are recorded before the type
        string is built, so a missing tag leaves them recorded and the
        estimator unchanged. `variable_types` is not stored. */
    method Fit(x: Matrix, y: seq<real>, types: Tags) returns (r: Result<()>)
      modifies this
      ensures xShape == Some(ShapeOf(x)) && yShape == Some(|y|)
      ensures variableTypes == old(variableTypes)
      ensures match TypeString(types, x.columns)
        case Ok(s) => r == Ok(()) && model == Some(KernelReg(y, x, s, "ll"))
        case Err(e) => r == Err(e) && model == old(model)
    {
      xShape := Some(ShapeOf(x));
      yShape := Some(|y|);
      var s :- TypeString(types, x.columns);
      model := Some(KernelReg(y, x, s, "ll"));
      r := Ok(());
    }

    /** `predict(X)`: fails unless `X` has exactly the shape recorded by the
        last fit, so every call before a fit fails. */
    method Predict(x: Matrix, estimate: Estimate) returns (r: Result<seq<real>>)
      ensures r.Ok? <==> xShape == Some(ShapeOf(x)) && model.Some?
      ensures xShape != Some(ShapeOf(x)) ==> r == Err(ShapeMismatch(xShape, ShapeOf(x)))
      ensures xShape == Some(ShapeOf(x)) && model.None? ==> r == Err(NoEstimator)
      ensures r.Ok? ==> r.value == estimate(model.value, x)
    {
      if xShape != Some(ShapeOf(x)) {
        return Err(ShapeMismatch(xShape, ShapeOf(x)));
      }
      if model.None? {
        return Err(NoEstimator);
      }
      r := Ok(estimate(model.value, x));
    }
  }
}
