/** The JavaScript values a JSON response can carry, and the three pieces of
    JavaScript semantics the front end applies to them: truthiness, property
    reads and `Number(...)`. */
module JsValue {
  import opened Wrappers

  /** A JavaScript number. Finite values are exact reals: IEEE rounding and
      negative zero are not modelled. */
  datatype Number = Finite(v: real) | NaN | PosInf | NegInf

  /** A value as `JSON.parse` (or axios) hands it to the front end. */
  datatype Value =
    | Undefined
    | Null
    | Bool(b: bool)
    | Num(n: Number)
    | Str(s: string)
    | Arr(items: seq<Value>)
    | Obj(fields: map<string, Value>)

  predicate Nullish(v: Value)
  {
    v.Undefined? || v.Null?
  }

  /** JavaScript truthiness: `false`, `0`, `NaN`, `""`, `null` and `undefined`
      are falsy, everything else (every array and object included) is truthy. */
  predicate Truthy(v: Value)
  {
    match v
    case Undefined => false
    case Null => false
    case Bool(b) => b
    case Num(n) => !(n.NaN? || n == Finite(0.0))
    case Str(s) => s != ""
    case Arr(_) => true
    case Obj(_) => true
  }

  /** `v || null` */
  function OrNull(v: Value): Value
  {
    if Truthy(v) then v else Null
  }

  /** `Number.isFinite(v)`: a number that is neither NaN nor infinite, with no coercion. */
  predicate IsFiniteNumber(v: Value)
  {
    v.Num? && v.n.Finite?
  }

  /** `v[key]` for a value that is not null or undefined (reading a property of
      those throws; callers test `Nullish` first). Only objects have the keys
      the front end reads: primitives and arrays yield `undefined` for them. */
  function Get(v: Value, key: string): Value
  {
    if v.Obj? && key in v.fields then v.fields[key] else Undefined
  }

  /** Whether converting `v` to a primitive succeeds. A parsed JSON object
      with its own `toString` key hides the callable `toString` of its
      prototype, so converting it (or an array holding it) throws TypeError. */
  predicate Stringifiable(v: Value)
    decreases v
  {
    match v
    case Obj(fields) => "toString" !in fields
    case Arr(items) => forall i | 0 <= i < |items| :: Stringifiable(items[i])
    case _ => true
  }

  /** `Number(v)`; `None` when the conversion throws TypeError. Strings go
      through `parse`, the engine's string-to-number conversion, which the
      model keeps abstract. An array converts through its comma-joined text:
      `[]`, `[null]` and `[undefined]` join to the empty text, which goes
      through `parse` like `[""]`; `[x]` gives what `x`'s text gives, and two
      or more elements give NaN because the text then holds a comma. */
  function ToNumber(v: Value, parse: string -> Number): Option<Number>
    decreases v
  {
    match v
    case Undefined => Some(NaN)
    case Null => Some(Finite(0.0))
    case Bool(b) => Some(Finite(if b then 1.0 else 0.0))
    case Num(n) => Some(n)
    case Str(s) => Some(parse(s))
    case Obj(fields) => if "toString" in fields then None else Some(NaN)
    case Arr(items) =>
      if !Stringifiable(v) then None
      else if |items| == 0 then Some(parse(""))
      else if |items| > 1 then Some(NaN)
      else
        match items[0]
        case Undefined => Some(parse(""))
        case Null => Some(parse(""))
        case Bool(_) => Some(NaN)
        case Num(n) => Some(n)
        case Str(s) => Some(parse(s))
        case Obj(_) => Some(NaN)
        case Arr(_) => ToNumber(items[0], parse)
  }

  /** `Number(v)` throws exactly when `v` cannot be converted to a primitive,
      and a number converts to itself. */
  lemma {:induction false} ToNumberThrowsIff(v: Value, parse: string -> Number)
    ensures ToNumber(v, parse).None? <==> !Stringifiable(v)
    ensures v.Num? ==> ToNumber(v, parse) == Some(v.n)
    decreases v
  {
    match v
    case Arr(items) =>
      if Stringifiable(v) && |items| == 1 && items[0].Arr? {
        ToNumberThrowsIff(items[0], parse);
      }
    case _ =>
  }

  /** The parts of a caught error that the handlers inspect: `e.response?.data`
      (`None` when the request got no response), `e.code` and `e.message`. */
  datatype Thrown = Thrown(response: Option<Value>, code: Value, message: string)

  /** The TypeError a property read on `null` or `undefined` throws (V8's text). */
  function ReadError(base: Value, key: string): Thrown
  {
    Thrown(None, Undefined,
      "Cannot read properties of " + (if base.Null? then "null" else "undefined")
      + " (reading '" + key + "')")
  }

  /** The TypeError `Number(...)`, or printing the value into a template
      literal, throws on a value with no usable `toString`. */
  const ConvertError := Thrown(None, Undefined, "Cannot convert object to primitive value")
}
