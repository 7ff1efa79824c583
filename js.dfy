/** The fragment of JavaScript's value semantics the handlers rely on:
    JSON-like values, property reads through optional chaining, truthiness,
    `??`, `===`, template-literal stringification and thrown errors. */
module Js {
  import opened Wrappers

  /** A parsed JSON value, plus `undefined`. Numbers are integers. */
  datatype Value =
    | Undefined
    | Null
    | Bool(b: bool)
    | Num(n: int)
    | Str(s: string)
    | Arr(items: seq<Value>)
    | Rec(fields: map<string, Value>)

  /** A plain object: attribute name to value. A name that is absent reads as
      `undefined`; a name present with value `undefined` is still listed by
      `Object.entries`. */
  type Obj = map<string, Value>

  /** A thrown `Error`: its message and its optional `statusCode` field. */
  datatype Fault = Fault(message: string, statusCode: Option<int>)

  /** The `TypeError` thrown by reading or calling through `undefined`. The
      engine's exact wording is not modelled. */
  const TypeErrorFault := Fault("TypeError", None)

  /** `o.k` */
  function Lookup(o: Obj, k: string): (r: Value)
    ensures k !in o ==> r == Undefined
  {
    if k in o then o[k] else Undefined
  }

  /** `v?.k` for the attribute names used here: only objects carry them. */
  function Get(v: Value, k: string): (r: Value)
    ensures !v.Rec? ==> r == Undefined
  {
    if v.Rec? then Lookup(v.fields, k) else Undefined
  }

  /** The own attributes that `{...v}` copies. */
  function AsObj(v: Value): Obj {
    if v.Rec? then v.fields else map[]
  }

  predicate Nullish(v: Value) {
    v.Undefined? || v.Null?
  }

  /** `a ?? b` */
  function Coalesce(a: Value, b: Value): (r: Value)
    ensures !Nullish(b) ==> !Nullish(r)
    ensures r == a || r == b
  {
    if Nullish(a) then b else a
  }

  /** `Boolean(v)` */
  predicate Truthy(v: Value) {
    match v
    case Undefined => false
    case Null => false
    case Bool(b) => b
    case Num(n) => n != 0
    case Str(s) => s != ""
    case Arr(_) => true
    case Rec(_) => true
  }

  /** `a === b`. Arrays and objects compare by reference; the ones compared
      here always come from separate parses, so they are never identical. */
  predicate StrictEq(a: Value, b: Value) {
    a == b && !a.Arr? && !a.Rec?
  }

  function DigitChar(d: nat): (c: char)
    requires d < 10
    ensures '0' <= c <= '9'
  {
    ['0', '1', '2', '3', '4', '5', '6', '7', '8', '9'][d]
  }

  /** The decimal spelling of a natural number, without leading zeros. */
  function NatToString(n: nat): (r: string)
    ensures |r| >= 1
    ensures forall i :: 0 <= i < |r| ==> '0' <= r[i] <= '9'
    decreases n
  {
    if n < 10 then [DigitChar(n)] else NatToString(n / 10) + [DigitChar(n % 10)]
  }

  function IntToString(n: int): (r: string)
    ensures r != ""
  {
    if n < 0 then "-" + NatToString(-n) else NatToString(n)
  }

  /** `${v}` in a template literal. */
  function ToStr(v: Value): (r: string)
    ensures v.Str? ==> r == v.s
    ensures !v.Str? && !v.Arr? ==> r != ""
    decreases v, 1
  {
    match v
    case Undefined => "undefined"
    case Null => "null"
    case Bool(b) => if b then "true" else "false"
    case Num(n) => IntToString(n)
    case Str(s) => s
    case Arr(_) => JoinElements(v, 0)
    case Rec(_) => "[object Object]"
  }

  /** `Array.prototype.join(",")` from index `i` on, as used by `String(array)`:
      `null` and `undefined` elements print as the empty string. */
  function JoinElements(v: Value, i: nat): string
    requires v.Arr? && i <= |v.items|
    decreases v, 0, |v.items| - i
  {
    if i == |v.items| then ""
    else
      var e := v.items[i];
      var head := if Nullish(e) then "" else ToStr(e);
      if i + 1 == |v.items| then head else head + "," + JoinElements(v, i + 1)
  }
}
