/**
 * The untyped JavaScript values the dashboard reads from JSON artifacts and
 * on-chain snapshots (`any` in the source), with the operators the pages
 * apply to them: truthiness (`!x`, `!!x`), nullish coalescing (`a ?? b`),
 * optional member access (`x?.k`), `String(x)`, `Object.keys(x)` and
 * `Number(x)`.
 *
 * Numbers are unbounded integers: JavaScript's are doubles, exact only up
 * to 2^53 and printed in exponent form from 1e21 on. Objects are an ordered
 * list of properties with distinct keys, in the order `Object.keys` reports
 * them.
 */
module JsValues {
  import opened Wrappers
  import Numerals

  datatype JsValue =
    | Undefined
    | Null
    | Bool(b: bool)
    | Num(n: int)
    | Str(s: string)
    | Arr(elems: seq<JsValue>)
    | Obj(props: seq<Prop>)

  datatype Prop = Prop(key: string, value: JsValue)

  /** JavaScript truthiness: false, 0, "", null and undefined are falsy; every array and object is truthy. */
  predicate Truthy(v: JsValue)
  {
    match v
    case Undefined => false
    case Null => false
    case Bool(b) => b
    case Num(n) => n != 0
    case Str(s) => s != ""
    case Arr(_) => true
    case Obj(_) => true
  }

  predicate Nullish(v: JsValue)
  {
    v.Undefined? || v.Null?
  }

  /** `a ?? b`: the left operand unless it is null or undefined. */
  function Coalesce(a: JsValue, b: JsValue): (r: JsValue)
    ensures !Nullish(a) ==> r == a
    ensures Nullish(a) ==> r == b
  {
    if Nullish(a) then b else a
  }

  /** The value stored under `key`, or undefined when the object has no such property. */
  function Get(props: seq<Prop>, key: string): (r: JsValue)
    ensures r != Undefined ==> exists i :: 0 <= i < |props| && props[i].key == key && props[i].value == r
    ensures (forall i :: 0 <= i < |props| ==> props[i].key != key) ==> r == Undefined
  {
    if props == [] then Undefined
    else if props[0].key == key then props[0].value
    else Get(props[1..], key)
  }

  /** `v?.key`: undefined unless v is an object holding that key. */
  function Member(v: JsValue, key: string): (r: JsValue)
    ensures Nullish(v) ==> r == Undefined
  {
    match v
    case Obj(props) => Get(props, key)
    case _ => Undefined
  }

  /** `Object.keys(v)` for an object. */
  function Keys(props: seq<Prop>): (ks: seq<string>)
    ensures |ks| == |props|
    ensures forall i :: 0 <= i < |props| ==> ks[i] == props[i].key
  {
    if props == [] then [] else [props[0].key] + Keys(props[1..])
  }

  /** `parts.join(sep)`. */
  function Join(parts: seq<string>, sep: string): (joined: string)
  {
    if parts == [] then ""
    else if |parts| == 1 then parts[0]
    else parts[0] + sep + Join(parts[1..], sep)
  }

  /**
   * `String(v)`. An array renders as its elements joined by ",", with null and
   * undefined elements rendered as the empty string; a plain object renders
   * as "[object Object]".
   */
  function ToString(v: JsValue): (s: string)
    decreases v
  {
    match v
    case Undefined => "undefined"
    case Null => "null"
    case Bool(b) => if b then "true" else "false"
    case Num(n) => Numerals.IntToDecimal(n)
    case Str(s) => s
    case Arr(elems) =>
      Join(seq(|elems|, i requires 0 <= i < |elems| =>
        if Nullish(elems[i]) then "" else ToString(elems[i])), ",")
    case Obj(_) => "[object Object]"
  }

  /** The string form of a number reads back as that number. */
  lemma NumToStringRoundTrip(n: int)
    ensures Numerals.ParseDecimal(ToString(Num(n))) == Some(n)
  {
    Numerals.DecimalRoundTrip(n);
  }

  /**
   * `Number(v)`, with None standing for NaN. The conversion of a string to a
   * number is the parameter `parse`; every value that is not a primitive is
   * first converted with String(v) and then parsed, as JavaScript does.
   */
  function ToNumber(v: JsValue, parse: string -> Option<real>): (r: Option<real>)
    ensures v.Num? ==> r == Some(v.n as real)
    ensures v.Null? ==> r == Some(0.0)
    ensures v.Undefined? ==> r == None
  {
    match v
    case Undefined => None
    case Null => Some(0.0)
    case Bool(b) => Some(if b then 1.0 else 0.0)
    case Num(n) => Some(n as real)
    case _ => parse(ToString(v))
  }
}
