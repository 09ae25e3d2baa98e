/** Python values as they travel between the services: the JSON-like payloads of dicts, lists and scalars. */
module Values {
  import opened Wrappers
  import Text

  datatype Value =
    | VNone
    | VBool(b: bool)
    | VInt(i: int)
    | VFloat(f: real)
    | VStr(s: string)
    | VList(items: seq<Value>)
    | VDict(entries: map<string, Value>)

  /** Python's `bool(v)`. */
  predicate Truthy(v: Value) {
    match v
    case VNone => false
    case VBool(b) => b
    case VInt(i) => i != 0
    case VFloat(f) => f != 0.0
    case VStr(s) => s != []
    case VList(items) => items != []
    case VDict(entries) => entries != map[]
  }

  /** JavaScript's truthiness of the same value once parsed from JSON: arrays and objects are always true. */
  predicate JsTruthy(v: Value) {
    match v
    case VNone => false
    case VBool(b) => b
    case VInt(i) => i != 0
    case VFloat(f) => f != 0.0
    case VStr(s) => s != []
    case VList(_) => true
    case VDict(_) => true
  }

  /** The two truthiness rules disagree exactly on empty lists and empty dicts. */
  lemma TruthinessDiffers(v: Value)
    ensures JsTruthy(v) != Truthy(v) <==> v == VList([]) || v == VDict(map[])
  {
  }

  /** The name Python gives the value's type in exception messages. */
  function TypeName(v: Value): string {
    match v
    case VNone => "NoneType"
    case VBool(_) => "bool"
    case VInt(_) => "int"
    case VFloat(_) => "float"
    case VStr(_) => "str"
    case VList(_) => "list"
    case VDict(_) => "dict"
  }

  /** `v.upper()`: only strings have the method. */
  function PyUpper(v: Value): (r: Result<string>)
    ensures r.Ok? <==> v.VStr?
    ensures v.VStr? ==> r.value == Text.Upper(v.s)
  {
    if v.VStr? then Ok(Text.Upper(v.s)) else Err("'" + TypeName(v) + "' object has no attribute 'upper'")
  }

  /** `v.lower()`: only strings have the method. */
  function PyLower(v: Value): (r: Result<string>)
    ensures r.Ok? <==> v.VStr?
    ensures v.VStr? ==> r.value == Text.Lower(v.s)
  {
    if v.VStr? then Ok(Text.Lower(v.s)) else Err("'" + TypeName(v) + "' object has no attribute 'lower'")
  }

  /** `float(v)`: numbers and booleans convert, strings are parsed, anything else raises. */
  function PyFloat(v: Value): (r: Result<real>)
    ensures v.VFloat? ==> r == Ok(v.f)
    ensures v.VInt? ==> r == Ok(v.i as real)
    ensures r.Ok? ==> !v.VNone? && !v.VList? && !v.VDict?
  {
    match v
    case VBool(b) => Ok(if b then 1.0 else 0.0)
    case VInt(i) => Ok(i as real)
    case VFloat(f) => Ok(f)
    case VStr(s) =>
      (match Text.PyFloat(s)
       case Some(x) => Ok(x)
       case None => Err("could not convert string to float: '" + s + "'"))
    case _ => Err("float() argument must be a string or a real number, not '" + TypeName(v) + "'")
  }

  /** Truncation toward zero, as Python's `int(x)` does for a float. */
  function TruncateReal(x: real): (n: int)
    ensures x >= 0.0 ==> n as real <= x < n as real + 1.0
    ensures x < 0.0 ==> n as real - 1.0 < x <= n as real
  {
    if x >= 0.0 then x.Floor else -((-x).Floor)
  }

  /** `int(v)`: integers stay, floats truncate toward zero, strings are parsed, anything else raises. */
  function PyInt(v: Value): (r: Result<int>)
    ensures v.VInt? ==> r == Ok(v.i)
    ensures r.Ok? ==> !v.VNone? && !v.VList? && !v.VDict?
  {
    match v
    case VBool(b) => Ok(if b then 1 else 0)
    case VInt(i) => Ok(i)
    case VFloat(f) => Ok(TruncateReal(f))
    case VStr(s) =>
      (match Text.PyInt(s)
       case Some(n) => Ok(n)
       case None => Err("invalid literal for int() with base 10: '" + s + "'"))
    case _ => Err("int() argument must be a string, a bytes-like object or a real number, not '" + TypeName(v) + "'")
  }

  /** `d.get(k, default)`. */
  function Get(d: map<string, Value>, k: string, default: Value): (r: Value)
    ensures k in d ==> r == d[k]
    ensures k !in d ==> r == default
  {
    if k in d then d[k] else default
  }

  /** The dict `{'error': message}` that handlers return on failure. */
  function ErrorDict(message: string): Value {
    VDict(map["error" := VStr(message)])
  }

  predicate IsErrorDict(v: Value) {
    v.VDict? && "error" in v.entries
  }
}
