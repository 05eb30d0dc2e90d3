/** Python values as they travel through the keyword options (`**kwargs`) of a
    plotting call, the failures the code raises, and the option lookups the
    causal plotting code performs. */
module Values {

  datatype Option<T> = None | Some(value: T)

  /** The `shape` of a feature matrix: (rows, columns). */
  datatype Shape = Shape(rows: nat, cols: nat)

  /** The exceptions the plotting code can end with. */
  datatype Error =
    | MissingColumn(column: string)     // KeyError from a column lookup on a frame
    | MissingKey(key: string)           // KeyError from `kwargs[key]`, `del kwargs[key]` or `variable_types[col]`
    | NotAColumnName(key: string)       // option `x` or `y` absent or not a string: the lookup `self[None]` fails
    | WrongType(key: string)            // TypeError / AttributeError on an option of the wrong kind
    | ShapeMismatch(expected: Option<Shape>, received: Shape)  // KernelModelWrapper.predict
    | NoEstimator                       // `self.model` is still None when KernelModelWrapper.predict runs
    | LengthMismatch(rows: nat, predictions: nat)  // assigning a prediction column of the wrong length
    | UndefinedMethod(name: string)     // AttributeError: the method is not defined

  datatype Result<T> = Ok(value: T) | Err(error: Error) {
    predicate IsFailure() { Err? }
    function PropagateFailure<U>(): Result<U> requires Err? { Err(error) }
    function Extract(): T requires Ok? { value }
  }

  /** The keys of an association list, in order. */
  function Keys(z: seq<(string, string)>): (ks: seq<string>)
    ensures |ks| == |z|
    ensures forall i :: 0 <= i < |z| ==> ks[i] == z[i].0
  {
    if z == [] then [] else [z[0].0] + Keys(z[1..])
  }

  predicate DistinctKeys(z: seq<(string, string)>) {
    forall i, j :: 0 <= i < j < |z| ==> z[i].0 != z[j].0
  }

  /** A Python dict from names to type tags (the option `z`); the order of the
      entries is the dict's iteration order, so `z.keys()` is `Keys(z)`. */
  type Tags = z: seq<(string, string)> | DistinctKeys(z) witness []

  /** `d.get(k)` on a tag dict. */
  function Lookup(z: seq<(string, string)>, k: string): (r: Option<string>)
    ensures r.Some? <==> k in Keys(z)
    ensures forall i :: 0 <= i < |z| && z[i].0 == k && DistinctKeys(z) ==> r == Some(z[i].1)
  {
    if z == [] then None
    else if z[0].0 == k then Some(z[0].1)
    else Lookup(z[1..], k)
  }

  /** `d[k] = v` on a tag dict: the entry of `k` is replaced where it stands,
      or appended when `k` is new. */
  function Assign(z: seq<(string, string)>, k: string, v: string): (r: seq<(string, string)>)
    ensures Keys(r) == if k in Keys(z) then Keys(z) else Keys(z) + [k]
  {
    if z == [] then [(k, v)]
    else if z[0].0 == k then
      var r := [(k, v)] + z[1..];
      assert r[1..] == z[1..];
      r
    else
      var rest := Assign(z[1..], k, v);
      var r := [z[0]] + rest;
      assert r[0] == z[0] && r[1..] == rest;
      r
  }

  /** After `d[k] = v`, `d.get(k)` is `v` and every other key's entry is as
      it was. */
  lemma {:induction false} AssignLookup(z: seq<(string, string)>, k: string, v: string)
    ensures Lookup(Assign(z, k, v), k) == Some(v)
    ensures forall k' :: k' != k ==> Lookup(Assign(z, k, v), k') == Lookup(z, k')
  {
    var r := Assign(z, k, v);
    if z != [] && z[0].0 != k {
      AssignLookup(z[1..], k, v);
      assert r[0] == z[0] && r[1..] == Assign(z[1..], k, v);
    } else if z != [] {
      assert r[1..] == z[1..];
    }
  }

  /** Assigning to a dict keeps it a dict: no key twice. */
  lemma AssignKeepsKeysDistinct(z: Tags, k: string, v: string)
    ensures DistinctKeys(Assign(z, k, v))
  {
    var r := Assign(z, k, v);
    forall i, j | 0 <= i < j < |r| ensures r[i].0 != r[j].0 {
      assert r[i].0 == Keys(r)[i] && r[j].0 == Keys(r)[j];
      if j < |z| {
        assert Keys(z)[i] == z[i].0 && Keys(z)[j] == z[j].0;
      } else {
        assert Keys(r)[i] == z[i].0;
      }
    }
  }

  /** A Python value that can be passed as a keyword option. */
  datatype Value =
    | VNone
    | VBool(b: bool)
    | VInt(i: int)
    | VReal(r: real)
    | VStr(s: string)
    | VTags(tags: Tags)          // a dict of column name -> type tag
    | VClass(cls: nat)           // a model class, called with no arguments
    | VModel(id: nat)            // a model instance
    | VErrorBars                 // the `zip(lowers, uppers)` payload given as `yerr`

  /** Python truthiness (`if v:`). */
  predicate Truthy(v: Value) {
    match v
    case VNone => false
    case VBool(b) => b
    case VInt(i) => i != 0
    case VReal(r) => r != 0.0
    case VStr(s) => s != ""
    case VTags(z) => z != []
    case _ => true
  }

  /** The keyword options of one call. */
  type Options = map<string, Value>

  /** `kwargs.get(key, default)` */
  function Get(kw: Options, key: string, default: Value): Value {
    if key in kw then kw[key] else default
  }

  /** `if arg_key: del kwargs[arg_key]` */
  function Strip(kw: Options, key: Option<string>): (r: Options)
    ensures key.Some? ==> key.value !in r
    ensures forall k :: k in kw && key != Some(k) ==> k in r && r[k] == kw[k]
    ensures r.Keys <= kw.Keys
  {
    if key.Some? then kw - {key.value} else kw
  }

  /** `kwargs.get(key)` used as a column name: absent or non-string values
      name no column of the frame. */
  function ColumnName(kw: Options, key: string): (r: Result<string>)
    ensures r.Ok? <==> key in kw && kw[key].VStr?
    ensures r.Ok? ==> r.value == kw[key].s
  {
    if key in kw && kw[key].VStr? then Ok(kw[key].s) else Err(NotAColumnName(key))
  }

  /** `kwargs.get('z', {})` used as a dict. */
  function Confounders(kw: Options): (r: Result<Tags>)
    ensures r.Ok? <==> "z" !in kw || kw["z"].VTags?
    ensures r.Ok? ==> r.value == if "z" in kw then kw["z"].tags else []
  {
    var none: Tags := [];
    if "z" !in kw then Ok(none)
    else if kw["z"].VTags? then Ok(kw["z"].tags)
    else Err(WrongType("z"))
  }

  /** `kwargs['xi']` used as the treatment value. */
  function TreatmentValue(kw: Options): (r: Result<real>)
    ensures r.Ok? <==> "xi" in kw && kw["xi"].VReal?
    ensures "xi" !in kw ==> r == Err(MissingKey("xi"))
    ensures r.Ok? ==> r.value == kw["xi"].r
  {
    if "xi" !in kw then Err(MissingKey("xi"))
    else if kw["xi"].VReal? then Ok(kw["xi"].r)
    else Err(WrongType("xi"))
  }

  /** `range(kwargs.get('bootstrap_samples'))`: the number of iterations;
      `range` accepts ints (and bools, which are ints in Python) only. */
  function DrawCount(kw: Options): (r: Result<nat>)
    ensures "bootstrap_samples" in kw && kw["bootstrap_samples"].VInt? ==>
      r == Ok(if kw["bootstrap_samples"].i < 0 then 0 else kw["bootstrap_samples"].i)
    ensures "bootstrap_samples" in kw && kw["bootstrap_samples"].VBool? ==>
      r == Ok(if kw["bootstrap_samples"].b then 1 else 0)
    ensures r.Err? <==> "bootstrap_samples" !in kw || !(kw["bootstrap_samples"].VInt? || kw["bootstrap_samples"].VBool?)
  {
    match Get(kw, "bootstrap_samples", VNone)
    case VInt(i) => Ok(if i < 0 then 0 else i)
    case VBool(b) => Ok(if b then 1 else 0)
    case _ => Err(WrongType("bootstrap_samples"))
  }
}
