/**
 The few pieces of Python semantics that the stream hooks rely on: scalar
 record values, string-keyed dictionaries, truthiness, subscripting with
 `KeyError`, the `<` operator, and the `decimal.Decimal` constructor.
 */
module PyValues {

  datatype Option<+T> = None | Some(value: T)

  /** A value or the exception that Python would raise instead. */
  datatype Result<+T, +E> = Ok(value: T) | Err(error: E) {
    predicate IsFailure() { Err? }

    function PropagateFailure<U>(): Result<U, E>
      requires Err?
    {
      Err(error)
    }

    function Extract(): T
      requires Ok?
    {
      value
    }
  }

  /** A scalar field of a decoded record: `None`, `bool`, `int`, `str` or `Decimal`. */
  datatype Value =
    | Null
    | Bool(b: bool)
    | Int(i: int)
    | Str(s: string)
    | Dec(d: real)

  /** A Python `dict` with string keys: a record, a context or a set of URL parameters. */
  type Dict = map<string, Value>

  /** The exceptions the hooks can raise. */
  datatype PyError =
    | KeyError(key: string)      // `d[key]` on a missing key
    | TypeError                  // `None[...]`, `Decimal(None)`, `<` between unrelated types
    | InvalidOperation(text: string)  // `Decimal(text)` on a string that is not a number

  /** Python's `bool(v)`. */
  predicate Truthy(v: Value) {
    match v
    case Null => false
    case Bool(b) => b
    case Int(i) => i != 0
    case Str(s) => s != ""
    case Dec(d) => d != 0.0
  }

  /** Python's `bool(d)` for a value that is a dict or `None`. */
  predicate DictTruthy(d: Option<Dict>) {
    d.Some? && d.value != map[]
  }

  /** `d.get(key)`: the value, or `None` when the key is absent. */
  function Get(d: Dict, key: string): Value {
    if key in d then d[key] else Null
  }

  /** `d[key]`. */
  function Subscript(d: Dict, key: string): Result<Value, PyError> {
    if key in d then Ok(d[key]) else Err(KeyError(key))
  }

  /** The exact number a numeric value stands for; `bool` is a subclass of `int`. */
  function Numeric(v: Value): Option<real> {
    match v
    case Bool(b) => Some(if b then 1.0 else 0.0)
    case Int(i) => Some(i as real)
    case Dec(d) => Some(d)
    case _ => None
  }

  /** Lexicographic order on code points, as Python compares two `str`. */
  function StrLess(a: string, b: string): bool {
    if a == [] then b != []
    else if b == [] then false
    else if a[0] != b[0] then a[0] < b[0]
    else StrLess(a[1..], b[1..])
  }

  /** Python's `a < b`: numbers against numbers, strings against strings, anything else raises. */
  function Less(a: Value, b: Value): Result<bool, PyError> {
    if Numeric(a).Some? && Numeric(b).Some? then Ok(Numeric(a).value < Numeric(b).value)
    else if a.Str? && b.Str? then Ok(StrLess(a.s, b.s))
    else Err(TypeError)
  }

  /**
   The parse behind `Decimal(str)`: the exact value of a numeric string, or
   `None` when the string is not one.
   */
  type DecimalParser = string -> Option<real>

  /** `Decimal(v)`: exact for strings, integers, booleans and decimals; `Decimal(None)` raises. */
  function ToDecimal(v: Value, parse: DecimalParser): Result<real, PyError> {
    match v
    case Null => Err(TypeError)
    case Str(s) => if parse(s).Some? then Ok(parse(s).value) else Err(InvalidOperation(s))
    case _ => Ok(Numeric(v).value)
  }
}
