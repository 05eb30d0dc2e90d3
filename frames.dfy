/** The parts of the tabular-data library the causal plotting code uses: a
    frame of numeric rows, column selection into a feature matrix, the
    overwrite of one column with a scalar, row resampling, the column mean
    and the distinct values of a column. */
module Frames {
  import opened Values

  type Row = map<string, real>

  datatype Table = Table(columns: set<string>, rows: seq<Row>)

  /** Every row has exactly the frame's columns. */
  predicate Rectangular(t: Table) {
    forall i :: 0 <= i < |t.rows| ==> t.rows[i].Keys == t.columns
  }

  type Frame = t: Table | Rectangular(t) witness Table({}, [])

  /** The rows of a column selection `df[cols]`, one value per selected column. */
  datatype Matrix = Matrix(columns: seq<string>, rows: seq<seq<real>>)

  function ShapeOf(x: Matrix): Shape {
    Shape(|x.rows|, |x.columns|)
  }

  /** The first name in `cols` that is not a column. */
  function FirstMissing(columns: set<string>, cols: seq<string>): (r: Option<string>)
    ensures r.None? <==> forall c :: c in cols ==> c in columns
    ensures r.Some? ==> r.value in cols && r.value !in columns
  {
    if cols == [] then None
    else if cols[0] !in columns then Some(cols[0])
    else FirstMissing(columns, cols[1..])
  }

  /** `df[cols]`: a KeyError when some name is not a column. */
  function Select(f: Frame, cols: seq<string>): (r: Result<Matrix>)
    ensures r.Ok? <==> forall c :: c in cols ==> c in f.columns
    ensures r.Err? ==> r.error.MissingColumn? && r.error.column in cols && r.error.column !in f.columns
    ensures r.Ok? ==> r.value.columns == cols && |r.value.rows| == |f.rows|
    ensures r.Ok? ==> forall i :: 0 <= i < |f.rows| ==> |r.value.rows[i]| == |cols|
    ensures r.Ok? ==> forall i, j :: 0 <= i < |f.rows| && 0 <= j < |cols| ==>
      cols[j] in f.rows[i] && r.value.rows[i][j] == f.rows[i][cols[j]]
  {
    match FirstMissing(f.columns, cols)
    case Some(c) => Err(MissingColumn(c))
    case None =>
      Ok(Matrix(cols, seq(|f.rows|, i requires 0 <= i < |f.rows| =>
        seq(|cols|, j requires 0 <= j < |cols| => f.rows[i][cols[j]]))))
  }

  /** `df[name]`: the values of one column, in row order. */
  function Column(f: Frame, name: string): (r: Result<seq<real>>)
    ensures r.Ok? <==> name in f.columns
    ensures r.Err? ==> r.error == MissingColumn(name)
    ensures r.Ok? ==> |r.value| == |f.rows| && forall i :: 0 <= i < |f.rows| ==> r.value[i] == f.rows[i][name]
  {
    if name in f.columns then Ok(seq(|f.rows|, i requires 0 <= i < |f.rows| => f.rows[i][name]))
    else Err(MissingColumn(name))
  }

  /** `df[name] = v`: every row gets `v` in column `name`, which is added
      when it is new; nothing else changes. */
  function Overwrite(f: Frame, name: string, v: real): (r: Frame)
    ensures r.columns == f.columns + {name} && |r.rows| == |f.rows|
    ensures forall i :: 0 <= i < |f.rows| ==> r.rows[i] == f.rows[i][name := v]
  {
    Table(f.columns + {name}, seq(|f.rows|, i requires 0 <= i < |f.rows| => f.rows[i][name := v]))
  }

  /** A resampler: `pick(i, d, j)` is the row drawn for position `j` of the
      `d`-th resample taken for the `i`-th treatment value. */
  type Sampler = (nat, nat, nat) -> nat

  /** The resampler draws rows of a frame with `n` rows. */
  ghost predicate Draws(pick: Sampler, n: nat) {
    forall i: nat, d: nat, j: nat :: j < n ==> pick(i, d, j) < n
  }

  /** `df.sample(n=n, replace=True)`, with the rows supplied by the resampler. */
  function Resample(f: Frame, n: nat, pick: Sampler, i: nat, d: nat): (r: Frame)
    requires Draws(pick, |f.rows|) && n <= |f.rows|
    ensures r.columns == f.columns && |r.rows| == n
    ensures forall j :: 0 <= j < n ==> r.rows[j] == f.rows[pick(i, d, j)]
  {
    Table(f.columns, seq(n, j requires 0 <= j < n => f.rows[pick(i, d, j)]))
  }

  function Sum(s: seq<real>): real {
    if s == [] then 0.0 else Sum(s[..|s| - 1]) + s[|s| - 1]
  }

  /** The mean of a numeric column; None stands for the NaN of an empty one. */
  function Mean(s: seq<real>): (r: Option<real>)
    ensures r.None? <==> s == []
    ensures r.Some? ==> r.value * (|s| as real) == Sum(s)
  {
    if s == [] then None else Some(Sum(s) / (|s| as real))
  }

  lemma {:induction false} SumOfCopies(s: seq<real>, v: real)
    requires forall k :: 0 <= k < |s| ==> s[k] == v
    ensures Sum(s) == (|s| as real) * v
  {
    if s != [] {
      SumOfCopies(s[..|s| - 1], v);
    }
  }

  /** The mean of draws that all agree is their common value. */
  lemma MeanOfCopies(s: seq<real>, v: real)
    requires s != [] && forall k :: 0 <= k < |s| ==> s[k] == v
    ensures Mean(s) == Some(v)
  {
    SumOfCopies(s, v);
    var n := |s| as real;
    assert Sum(s) / n == (n * v) / n == v;
  }

  predicate Distinct(s: seq<real>) {
    forall i, j :: 0 <= i < j < |s| ==> s[i] != s[j]
  }

  /** Series.unique(): the distinct values, each once, in the order of their
      first occurrence. */
  function Unique(s: seq<real>): (r: seq<real>)
    ensures forall v :: v in r <==> v in s
    ensures Distinct(r)
  {
    if s == [] then []
    else
      var u := Unique(s[..|s| - 1]);
      assert forall v :: v in s <==> v in s[..|s| - 1] || v == s[|s| - 1] by {
        assert s == s[..|s| - 1] + [s[|s| - 1]];
      }
      if s[|s| - 1] in u then u else u + [s[|s| - 1]]
  }

  /** The index of the first occurrence of `v` in `s`. */
  function FirstIndex(s: seq<real>, v: real): (k: nat)
    requires v in s
    ensures k < |s| && s[k] == v
    ensures forall k' :: 0 <= k' < k ==> s[k'] != v
  {
    if v in s[..|s| - 1] then FirstIndex(s[..|s| - 1], v) else |s| - 1
  }

  /** The distinct values come in the order of their first occurrences. */
  lemma {:induction false} UniqueInFirstOccurrenceOrder(s: seq<real>, i: nat, j: nat)
    requires i < j < |Unique(s)|
    ensures FirstIndex(s, Unique(s)[i]) < FirstIndex(s, Unique(s)[j])
  {
    var p := s[..|s| - 1];
    var u := Unique(p);
    assert s == p + [s[|s| - 1]];
    if s[|s| - 1] in u {
      assert Unique(s) == u;
      UniqueInFirstOccurrenceOrder(p, i, j);
    } else {
      assert Unique(s) == u + [s[|s| - 1]];
      if j < |u| {
        UniqueInFirstOccurrenceOrder(p, i, j);
      } else {
        assert u[i] in p;
        assert FirstIndex(s, u[i]) == FirstIndex(p, u[i]);
      }
    }
  }
}
