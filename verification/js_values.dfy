/**
 * The slice of JavaScript's value universe that the service inspects: request
 * bodies, response payloads, thrown values and plain objects produced by
 * `toPlainObject`/`toJSON`.  Numbers are modelled as mathematical integers
 * (every number the service handles is an id, a status or a count).
 */
module JsValues {

  /** Absent-or-present, used for optional TypeScript members (`x?: T`). */
  datatype Option<+T> = None | Some(value: T)

  datatype Value =
    | Undefined
    | Null
    | Bool(b: bool)
    | Num(n: int)
    | Str(s: string)
    | Obj(fields: map<string, Value>)

  /** JavaScript truthiness (`if (v)`); NaN is not a value of this model. */
  predicate Truthy(v: Value) {
    match v
    case Undefined => false
    case Null => false
    case Bool(b) => b
    case Num(n) => n != 0
    case Str(s) => s != ""
    case Obj(_) => true
  }

  /** `null` or `undefined`: the values whose property reads throw a TypeError. */
  predicate Nullish(v: Value) {
    v.Undefined? || v.Null?
  }

  /** The nullish-coalescing operator `v ?? fallback`. */
  function Coalesce(v: Value, fallback: Value): Value {
    if Nullish(v) then fallback else v
  }

  /** Property read `v.key` on a value that is not nullish. */
  function Get(v: Value, key: string): Value
    requires !Nullish(v)
  {
    match v
    case Obj(f) => if key in f then f[key] else Undefined
    case _ => Undefined
  }

  /** An optional string member as it appears in a plain object. */
  function OptStr(o: Option<string>): Value {
    match o
    case None => Undefined
    case Some(s) => Str(s)
  }

  /** An optional numeric member as it appears in a plain object. */
  function OptNum(o: Option<int>): Value {
    match o
    case None => Undefined
    case Some(n) => Num(n)
  }

  /** A nullable string column (`string | null`) as it appears in a plain object. */
  function NullableStr(o: Option<string>): Value {
    match o
    case None => Null
    case Some(s) => Str(s)
  }

  /** A nullable integer column (`number | null`) as it appears in a plain object. */
  function NullableNum(o: Option<int>): Value {
    match o
    case None => Null
    case Some(n) => Num(n)
  }

  /** Decimal rendering of a natural number, as JavaScript prints array indices. */
  function NatToString(n: nat): (r: string)
    ensures |r| >= 1
    ensures forall i :: 0 <= i < |r| ==> '0' <= r[i] <= '9'
  {
    if n < 10 then [DigitChar(n)] else NatToString(n / 10) + [DigitChar(n % 10)]
  }

  function DigitChar(d: nat): (c: char)
    requires d < 10
    ensures '0' <= c <= '9'
  {
    "0123456789"[d]
  }
}
