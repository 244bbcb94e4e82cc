/** JavaScript values as the dashboard sees them (what `JSON.parse` returns, a
    raw payload string, the result of an evaluated expression) and the coercions
    `Number(v)`, `String(v)`, truthiness and property access, with every
    foreign operation of the runtime passed in as a `Runtime`. */
module Js {
  import opened Options
  import Text

  newtype byte = x: int | 0 <= x < 256

  /** A JSON-shaped JavaScript value. Numbers are reals: NaN and the
      infinities have no representation here. */
  datatype Value =
    | Null
    | Bool(b: bool)
    | Num(n: real)
    | Str(s: string)
    | Arr(items: seq<Value>)
    | Obj(fields: map<string, Value>)

  /** The operations of the JavaScript runtime that the model takes as given.
      A result of `None` stands for "throws" (for `JSON.parse` and the
      expression evaluator) or for NaN (for the number conversions). */
  datatype Runtime = Runtime(
    jsonParse: string -> Option<Value>,
    jsonStringify: Value -> string,
    textToNumber: string -> Option<real>,
    numberToText: real -> string,
    parseFloat: string -> Option<real>,
    /** Replace every `x` of the expression by the number's text and run
        `new Function("return " + expression)`. */
    eval: (string, real) -> Option<Value>,
    /** `TextDecoder.decode` and `Buffer.toString()` on a payload. */
    decodeUtf8: seq<byte> -> string)

  /** `v && typeof v === "object"`: arrays and objects, never null. */
  predicate IsObject(v: Value)
  {
    v.Arr? || v.Obj?
  }

  /** The canonical array index that a property name denotes: decimal digits
      without a leading zero. */
  function ArrayIndex(key: string): (r: Option<nat>)
    ensures r.Some? ==> key != [] && Text.AllDigits(key)
  {
    if key != [] && Text.AllDigits(key) && (key[0] != '0' || |key| == 1)
    then Some(DigitsValue(key)) else None
  }

  function DigitsValue(s: string): nat
    requires Text.AllDigits(s)
  {
    if s == [] then 0
    else 10 * DigitsValue(s[..|s| - 1]) + (s[|s| - 1] as int - '0' as int)
  }

  /** `v[key]` on an object or an array; `None` is `undefined`. Properties
      inherited from the prototypes are not modelled. */
  function Member(v: Value, key: string): (r: Option<Value>)
    requires IsObject(v)
    ensures v.Obj? ==> (r.Some? <==> key in v.fields)
    ensures v.Obj? && key in v.fields ==> r == Some(v.fields[key])
  {
    match v
    case Obj(fields) => if key in fields then Some(fields[key]) else None
    case Arr(items) =>
      if key == "length" then Some(Num(|items| as real))
      else match ArrayIndex(key)
        case Some(i) => if i < |items| then Some(items[i]) else None
        case None => None
  }

  /** `String(v)`. Inside an array, null elements print as the empty string. */
  function ToText(v: Value, rt: Runtime): string
  {
    match v
    case Null => "null"
    case Bool(b) => if b then "true" else "false"
    case Num(n) => rt.numberToText(n)
    case Str(s) => s
    case Arr(items) =>
      JoinWithCommas(seq(|items|, i requires 0 <= i < |items| =>
        if items[i].Null? then "" else ToText(items[i], rt)))
    case Obj(_) => "[object Object]"
  }

  function JoinWithCommas(parts: seq<string>): string
  {
    if parts == [] then "" else Text.Join(parts, ',')
  }

  /** `Number(v)`: `None` when the result is NaN. Arrays convert through their
      text, as `Number` does. */
  function ToNumber(v: Value, rt: Runtime): (r: Option<real>)
    ensures v.Num? ==> r == Some(v.n)
    ensures v.Obj? ==> r.None?
  {
    match v
    case Null => Some(0.0)
    case Bool(b) => Some(if b then 1.0 else 0.0)
    case Num(n) => Some(n)
    case Str(s) => rt.textToNumber(s)
    case Arr(_) => rt.textToNumber(ToText(v, rt))
    case Obj(_) => None
  }

  /** An array of one string prints as that string, so `Number(["7"])` is
      `Number("7")`. */
  lemma SingletonArrayText(s: string, rt: Runtime)
    ensures ToText(Arr([Str(s)]), rt) == s
  {
    var parts := seq(1, i requires 0 <= i < 1 => if [Str(s)][i].Null? then "" else ToText([Str(s)][i], rt));
    assert parts == [s];
  }
}
