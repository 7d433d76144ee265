/** JavaScript values as the request layer and the store pass them around:
    config bags, payloads, response bodies. Numbers are integers here. */
module JsValues {

  datatype Option<+T> = None | Some(value: T)

  datatype Value =
    | Undefined
    | Null
    | Bool(b: bool)
    | Num(n: int)
    | Str(s: string)
    | Obj(fields: map<string, Value>)
    /** An `AbortSignal`, named by the index of the controller that owns it. */
    | Signal(id: nat)

  /** A plain object, seen as its own enumerable properties. */
  type Record = map<string, Value>

  /** `r[k]`, which is `undefined` for a missing key. */
  function Get(r: Record, k: string): Value
  {
    if k in r then r[k] else Undefined
  }

  /** `v.k` on a value that is not null or undefined. */
  function Prop(v: Value, k: string): Value
  {
    if v.Obj? then Get(v.fields, k) else Undefined
  }

  /** The properties `{...v}` copies: an object's own fields, nothing for
      null, undefined, booleans, numbers and signals. */
  function Spread(v: Value): Record
  {
    if v.Obj? then v.fields else map[]
  }

  /** JavaScript truthiness. */
  predicate Truthy(v: Value)
  {
    match v
    case Undefined => false
    case Null => false
    case Bool(b) => b
    case Num(n) => n != 0
    case Str(s) => s != ""
    case Obj(_) => true
    case Signal(_) => true
  }

  /** `typeof v === 'object'`, which holds for `null` too. */
  predicate IsObjectType(v: Value)
  {
    v.Null? || v.Obj? || v.Signal?
  }

  function DigitChar(d: nat): char
    requires d < 10
  {
    "0123456789"[d]
  }

  /** Decimal digits of a natural number, most significant first. */
  function NatToDecimal(n: nat): (r: string)
    ensures |r| > 0
    decreases n
  {
    if n < 10 then [DigitChar(n)] else NatToDecimal(n / 10) + [DigitChar(n % 10)]
  }

  /** `String(v)` / `${v}`. */
  function ToJsString(v: Value): string
  {
    match v
    case Undefined => "undefined"
    case Null => "null"
    case Bool(b) => if b then "true" else "false"
    case Num(n) => if n < 0 then "-" + NatToDecimal(-n) else NatToDecimal(n)
    case Str(s) => s
    case Obj(_) => "[object Object]"
    case Signal(_) => "[object AbortSignal]"
  }

  predicate StartsWith(s: string, prefix: string)
  {
    |prefix| <= |s| && s[..|prefix|] == prefix
  }

  /** The upper-case form of an ASCII letter; every other character is kept. */
  function UpperChar(c: char): char
  {
    if 'a' <= c <= 'z' then (c as int - 32) as char else c
  }

  /** The lower-case form of an ASCII letter; every other character is kept. */
  function LowerChar(c: char): char
  {
    if 'A' <= c <= 'Z' then (c as int + 32) as char else c
  }

  /** `toLocaleUpperCase` restricted to ASCII letters. */
  function ToUpperAscii(s: string): (r: string)
    ensures |r| == |s|
    ensures forall i :: 0 <= i < |s| ==> r[i] == UpperChar(s[i])
  {
    if s == [] then [] else [UpperChar(s[0])] + ToUpperAscii(s[1..])
  }

  /** `toLowerCase` restricted to ASCII letters. */
  function ToLowerAscii(s: string): (r: string)
    ensures |r| == |s|
    ensures forall i :: 0 <= i < |s| ==> r[i] == LowerChar(s[i])
  {
    if s == [] then [] else [LowerChar(s[0])] + ToLowerAscii(s[1..])
  }

  /** Upper-casing forgets an earlier lower-casing. */
  lemma UpperOfLower(s: string)
    ensures ToUpperAscii(ToLowerAscii(s)) == ToUpperAscii(s)
  {
    var u := ToUpperAscii(ToLowerAscii(s));
    assert forall i :: 0 <= i < |s| ==> u[i] == UpperChar(LowerChar(s[i])) == UpperChar(s[i]);
  }
}
