/**
 * The slice of JavaScript value semantics the record adapters rely on:
 * loosely typed values, truthiness (`||`, `if (x)`), string coercion
 * (template literals, `new Error(x)`, `Array.prototype.join`) and
 * optional property reads (`x?.Name`).
 *
 * Numbers are integers here; floating point is not part of this model.
 */
module Js {

  datatype Option<+T> = None | Some(value: T)

  /** A JavaScript value as it appears in a storage row, a caller's input or a payload. */
  datatype Value =
    | Undefined
    | Null
    | Bool(b: bool)
    | Num(n: int)
    | NaN
    | Str(s: string)
    | Arr(elems: seq<Value>)
    | Obj(props: map<string, Value>)

  /** A plain JavaScript object: storage rows, caller inputs and request payloads. */
  type Fields = map<string, Value>

  /** What a thrown exception carries: an `Error` with its message, or a `TypeError`
      raised by the runtime (a property read on undefined, a missing method). */
  datatype Fault = Error(message: string) | TypeError

  /** The result of an operation that may throw. */
  datatype Outcome<+T> = Ok(value: T) | Threw(fault: Fault)

  /** Library behaviour the adapters call but that is not modelled here:
      `parseInt`, `JSON.stringify`, `JSON.parse` (None when it throws) and
      date-string parsing as done by `new Date(text)` (None for an invalid date). */
  datatype Host = Host(
    parseInt: Value -> Value,
    stringify: Value -> string,
    parse: string -> Option<Value>,
    parseDate: string -> Option<int>)

  /** One reading of the clock: `Date.now()` and `new Date().toISOString()`. */
  datatype Clock = Clock(millis: int, iso: string)

  /** JavaScript truthiness. */
  predicate Truthy(v: Value) {
    match v
    case Undefined => false
    case Null => false
    case Bool(b) => b
    case Num(n) => n != 0
    case NaN => false
    case Str(s) => s != ""
    case Arr(_) => true
    case Obj(_) => true
  }

  /** `a || b` */
  function Or(a: Value, b: Value): Value {
    if Truthy(a) then a else b
  }

  /** Reading `o.key` on a plain object: a missing key reads as `undefined`. */
  function Get(o: Fields, key: string): Value {
    if key in o then o[key] else Undefined
  }

  /** `o.key !== undefined` */
  predicate Defined(o: Fields, key: string) {
    Get(o, key) != Undefined
  }

  /** `v?.key`: nullish values and values without such a property give `undefined`. */
  function Prop(v: Value, key: string): Value {
    match v
    case Obj(m) => Get(m, key)
    case _ => Undefined
  }

  /** Decimal digits of a natural number. */
  function NatToDecimal(n: nat): (r: string)
    ensures |r| > 0
    ensures forall i :: 0 <= i < |r| ==> '0' <= r[i] <= '9'
  {
    var d := ['0' + (n % 10) as char];
    if n < 10 then d else NatToDecimal(n / 10) + d
  }

  /** `String(v)`, which is also what a template literal `${v}` produces. */
  function ToString(v: Value): string
    decreases v, 1
  {
    match v
    case Undefined => "undefined"
    case Null => "null"
    case Bool(b) => if b then "true" else "false"
    case Num(n) => if n < 0 then "-" + NatToDecimal(-n) else NatToDecimal(n)
    case NaN => "NaN"
    case Str(s) => s
    case Arr(es) => JoinValues(es, ",")
    case Obj(_) => "[object Object]"
  }

  /** `Array.prototype.join(sep)`: `undefined` and `null` elements become empty text. */
  function JoinValues(es: seq<Value>, sep: string): string
    decreases es, 0
  {
    if es == [] then ""
    else if |es| == 1 then JoinPart(es[0])
    else JoinPart(es[0]) + sep + JoinValues(es[1..], sep)
  }

  function JoinPart(e: Value): string
    decreases e, 2
  {
    if e == Undefined || e == Null then "" else ToString(e)
  }

  /** The `message` of `new Error(v)`: empty for `undefined`, otherwise `String(v)`. */
  function ErrorText(v: Value): string {
    if v == Undefined then "" else ToString(v)
  }

  /** The time value of `new Date(v)`, None when it is `NaN` (an invalid date). */
  function DateOf(v: Value, host: Host): (t: Option<int>)
    ensures v == Null ==> t == Some(0)
    ensures v == Undefined || v == NaN ==> t == None
    ensures v.Bool? ==> t == Some(if v.b then 1 else 0)
    ensures v.Num? ==> (t.Some? <==> -8_640_000_000_000_000 <= v.n <= 8_640_000_000_000_000)
    ensures v.Num? && t.Some? ==> t.value == v.n
    ensures v.Str? ==> t == host.parseDate(v.s)
    ensures v.Arr? || v.Obj? ==> t == host.parseDate(ToString(v))
  {
    match v
    case Undefined => None
    case Null => Some(0)
    case Bool(b) => Some(if b then 1 else 0)
    case Num(n) => if -8_640_000_000_000_000 <= n <= 8_640_000_000_000_000 then Some(n) else None
    case NaN => None
    case Str(s) => host.parseDate(s)
    case Arr(_) => host.parseDate(ToString(v))
    case Obj(_) => host.parseDate(ToString(v))
  }
}
