/**
 * The runtime values that callers hand to the option-variable store, and the
 * classification of a value into one of the three scalar kinds the host's
 * option variables can hold (string, int, float).
 */
module PyValues {

  datatype Option<+T> = None | Some(value: T)

  /**
   * A Python value as the store sees it. Python's `bool`/`long` and
   * `str`/`unicode` distinctions are not drawn: `PyStr` is any basestring,
   * `PyInt` any int. `PyFloat` carries a real number: floats are only stored
   * and compared here, never computed with. `PyObject` stands for any other
   * object (a dict, a tuple, an instance of a user class) by its type name.
   */
  datatype PyValue =
    | PyStr(s: string)
    | PyInt(i: int)
    | PyFloat(f: real)
    | PyList(elems: seq<PyValue>)
    | PyNone
    | PyObject(typeName: string)

  /** The three datatypes an option variable (or each element of an option-variable array) can have. */
  datatype Kind = StringKind | IntKind | FloatKind

  /** A typed scalar as the host stores it. */
  datatype Scalar = Str(s: string) | Int(i: int) | Float(f: real)

  function KindOf(v: Scalar): Kind
  {
    match v
    case Str(_) => StringKind
    case Int(_) => IntKind
    case Float(_) => FloatKind
  }

  /** The Python value the host hands back for a stored scalar. */
  function ToPy(v: Scalar): PyValue
  {
    match v
    case Str(s) => PyStr(s)
    case Int(i) => PyInt(i)
    case Float(f) => PyFloat(f)
  }

  function ToPyAll(ys: seq<Scalar>): seq<PyValue>
  {
    seq(|ys|, j requires 0 <= j < |ys| => ToPy(ys[j]))
  }

  /**
   * The isinstance chain of the store: string first, then int, then float.
   * A value of any other type has no scalar kind. The classified scalar is
   * exactly the value the caller gave.
   */
  function Classify(v: PyValue): (r: Option<Scalar>)
    ensures r.Some? <==> v.PyStr? || v.PyInt? || v.PyFloat?
    ensures r.Some? ==> ToPy(r.value) == v
  {
    if v.PyStr? then Some(Str(v.s))
    else if v.PyInt? then Some(Int(v.i))
    else if v.PyFloat? then Some(Float(v.f))
    else None
  }

  /** `isinstance(v, t)` where `t` is the Python type of kind `k`. */
  predicate HasKind(v: PyValue, k: Kind)
  {
    Classify(v).Some? && KindOf(Classify(v).value) == k
  }

  /** The scalars of a sequence of values that all have a scalar kind. */
  function ScalarsOf(xs: seq<PyValue>): (ys: seq<Scalar>)
    requires forall j :: 0 <= j < |xs| ==> Classify(xs[j]).Some?
    ensures |ys| == |xs|
    ensures forall j :: 0 <= j < |xs| ==> ToPy(ys[j]) == xs[j]
  {
    seq(|xs|, j requires 0 <= j < |xs| => Classify(xs[j]).value)
  }

  /** Classify and ToPy are inverse on scalars. */
  lemma ClassifyToPy(v: Scalar)
    ensures Classify(ToPy(v)) == Some(v)
  {
  }
}
