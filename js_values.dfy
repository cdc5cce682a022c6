/**
  The untyped JavaScript values the extension reads from the store and builds
  for it, with the three operators its decoders are written with: truthiness,
  `a || b`, and optional chaining `v?.key` / `v?.[0]`.
*/
module JsValues {
  import opened Dates

  /** A JavaScript number: NaN, an infinity, or a finite value (kept exactly, as a real). */
  datatype JsNumber = NaN | PositiveInfinity | NegativeInfinity | Finite(value: real)

  /** `!isNaN(n) && n > 0` */
  predicate IsPositive(n: JsNumber) {
    n == PositiveInfinity || (n.Finite? && n.value > 0.0)
  }

  datatype Js =
    | Undefined
    | Null
    | Bool(b: bool)
    | Num(n: JsNumber)
    | Str(s: string)
    | JDate(date: JsDate)
    | Arr(items: seq<Js>)
    | Obj(fields: map<string, Js>)

  /** JavaScript truthiness: undefined, null, false, NaN, 0 and "" are falsy; objects, arrays and dates are truthy. */
  predicate Truthy(v: Js) {
    match v
    case Undefined => false
    case Null => false
    case Bool(b) => b
    case Num(n) => !(n.NaN? || n == Finite(0.0))
    case Str(s) => s != ""
    case _ => true
  }

  /** `a || b` */
  function Or(a: Js, b: Js): Js {
    if Truthy(a) then a else b
  }

  /** `v?.key`: the field of an object, otherwise undefined (also on undefined and null, where the chain stops). */
  function Get(v: Js, key: string): Js {
    match v
    case Obj(m) => if key in m then m[key] else Undefined
    case _ => Undefined
  }

  /** `v?.[0]`: the first element of an array, the first character of a string, the field "0" of an object. */
  function First(v: Js): Js {
    match v
    case Arr(items) => if |items| > 0 then items[0] else Undefined
    case Str(s) => if |s| > 0 then Str([s[0]]) else Undefined
    case Obj(m) => if "0" in m then m["0"] else Undefined
    case _ => Undefined
  }

  /** The own fields `{...v}` copies: those of an object; nothing for undefined, null and the other values modelled here. */
  function Spread(v: Js): map<string, Js> {
    match v
    case Obj(m) => m
    case _ => map[]
  }

  /** `new Date(v)` for a value read from the store: a text is parsed, a Date is copied. */
  function NewDate(v: Js): JsDate {
    match v
    case Str(s) => NewDateFromText(s)
    case JDate(d) => d
    case _ => InvalidDate
  }
}
