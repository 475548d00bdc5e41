/** Abstract Python values, as far as the splash screen inspects them: their exact
    type (`type(v)`), their length (`len(v)`) and subscripting with a small integer
    (`v[0]`, `v[1]`). Objects of other classes and subclasses of the built-in types
    are not modelled. */
module PyValues {

  datatype Option<+T> = None | Some(value: T)

  /** The built-in exception classes the widget can raise. */
  datatype ErrorKind = TypeError | ValueError | KeyError

  /** The result of `type(v)` for the values below. */
  datatype PyType =
    | NoneType | BoolType | IntType | FloatType | StrType | BytesType
    | ListType | TupleType | DictType

  datatype PyValue =
    | PyNone
    | PyBool(b: bool)
    | PyInt(i: int)
    | PyFloat(f: real)
    | PyStr(s: string)
    | PyBytes(bytes: seq<bv8>)
    | PyList(items: seq<PyValue>)
    | PyTuple(items: seq<PyValue>)
    | PyDict(entries: seq<(PyValue, PyValue)>)

  /** `type(v)`: exact type; `bool` is its own type even though it subclasses `int`. */
  function TypeOf(v: PyValue): (t: PyType)
    ensures t == StrType <==> v.PyStr?
    ensures t == IntType <==> v.PyInt?
    ensures t == BoolType <==> v.PyBool?
  {
    match v
    case PyNone => NoneType
    case PyBool(_) => BoolType
    case PyInt(_) => IntType
    case PyFloat(_) => FloatType
    case PyStr(_) => StrType
    case PyBytes(_) => BytesType
    case PyList(_) => ListType
    case PyTuple(_) => TupleType
    case PyDict(_) => DictType
  }

  /** Sized values: the ones `len()` accepts. */
  predicate Sized(v: PyValue) {
    v.PyStr? || v.PyBytes? || v.PyList? || v.PyTuple? || v.PyDict?
  }

  /** `len(v)`; `None` where Python raises TypeError ("object has no len()"). */
  function Len(v: PyValue): (n: Option<nat>)
    ensures n.Some? <==> Sized(v)
  {
    match v
    case PyStr(s) => Some(|s|)
    case PyBytes(bs) => Some(|bs|)
    case PyList(items) => Some(|items|)
    case PyTuple(items) => Some(|items|)
    case PyDict(entries) => Some(|entries|)
    case _ => None
  }

  /** The numeric value of a key, for Python's `==` between numbers
      (`False == 0`, `1.0 == 1`); `None` for non-numeric keys. */
  function NumericValue(v: PyValue): Option<real> {
    match v
    case PyBool(b) => Some(if b then 1.0 else 0.0)
    case PyInt(i) => Some(i as real)
    case PyFloat(f) => Some(f)
    case _ => None
  }

  /** Does dictionary key `key` compare equal to the integer `k`? */
  predicate KeyMatches(key: PyValue, k: int) {
    NumericValue(key) == Some(k as real)
  }

  /** `d[k]` on a dictionary given by its entries in insertion order; `None` is KeyError.
      A Python dictionary holds no two equal keys, so the first match is the only one. */
  function Lookup(entries: seq<(PyValue, PyValue)>, k: int): (r: Option<PyValue>)
    ensures r.Some? <==> exists j :: 0 <= j < |entries| && KeyMatches(entries[j].0, k)
    ensures r.Some? ==> exists j :: 0 <= j < |entries| && KeyMatches(entries[j].0, k) && r.value == entries[j].1
  {
    if |entries| == 0 then None
    else if KeyMatches(entries[0].0, k) then Some(entries[0].1)
    else
      var rest := Lookup(entries[1..], k);
      assert forall j :: 1 <= j < |entries| ==> entries[j] == entries[1..][j - 1];
      rest
  }

  /** `v[k]` for a sized value; `None` is the KeyError of a dictionary without key `k`.
      Sequences are only subscripted within their length. */
  function Subscript(v: PyValue, k: nat): (r: Option<PyValue>)
    requires Sized(v)
    requires !v.PyDict? ==> k < Len(v).value
    ensures !v.PyDict? ==> r.Some?
    ensures (v.PyList? || v.PyTuple?) ==> r == Some(v.items[k])
    ensures v.PyStr? ==> r.value.PyStr? && r.value.s == [v.s[k]]
    ensures v.PyBytes? ==> r.value.PyInt? && 0 <= r.value.i < 256 && r.value.i == v.bytes[k] as int
    ensures v.PyDict? ==> (r.Some? <==> exists j :: 0 <= j < |v.entries| && KeyMatches(v.entries[j].0, k))
  {
    match v
    case PyStr(s) => Some(PyStr([s[k]]))
    case PyBytes(bs) => Some(PyInt(bs[k] as int))
    case PyList(items) => Some(items[k])
    case PyTuple(items) => Some(items[k])
    case PyDict(entries) => Lookup(entries, k)
  }
}
