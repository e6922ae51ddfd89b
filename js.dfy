/** JavaScript values as the gateway and the browser client see them: the
    values `JSON.parse` can produce, plus `undefined`, with the three
    operations of the language the core relies on -- truthiness (`if (!x)`,
    `a || b`), property access that yields `undefined` when the property is
    absent (`o?.k`), and the `String(x)` coercion `JSON.parse` applies to a
    non-string argument. */
module Js {

  datatype Option<+T> = None | Some(value: T)

  /** A JavaScript value. Numbers are modelled as integers. */
  datatype JsValue =
    | Undefined
    | Null
    | Bool(b: bool)
    | Num(n: int)
    | Str(s: string)
    | Arr(items: seq<JsValue>)
    | Obj(props: map<string, JsValue>)

  /** `JSON.parse`: a partial function from text to a value; `None` stands
      for the SyntaxError it throws. It is a parameter of every member that
      parses, so each property holds for every parser. */
  type Parser = string -> Option<JsValue>

  /** JavaScript truthiness: `undefined`, `null`, `false`, `0` and `""` are
      falsy; every array and object is truthy. */
  predicate Truthy(v: JsValue)
  {
    match v
    case Undefined => false
    case Null => false
    case Bool(b) => b
    case Num(n) => n != 0
    case Str(s) => s != ""
    case Arr(_) => true
    case Obj(_) => true
  }

  /** `a || b`. */
  function Or(a: JsValue, b: JsValue): JsValue
  {
    if Truthy(a) then a else b
  }

  /** `v?.key`: the own property `key` of an object; `undefined` for an
      absent property and for every value that is not an object (none of
      the keys the core reads is inherited by arrays, strings or numbers). */
  function Get(v: JsValue, key: string): JsValue
  {
    match v
    case Obj(props) => if key in props then props[key] else Undefined
    case _ => Undefined
  }

  /** `String(v)` when it does not throw (see `ToStringThrows`): arrays
      are joined with commas (with `null` and `undefined` elements written
      as empty), plain objects become "[object Object]". */
  function ToJsString(v: JsValue): string
    decreases v
  {
    match v
    case Undefined => "undefined"
    case Null => "null"
    case Bool(b) => if b then "true" else "false"
    case Num(n) => Decimal(n)
    case Str(s) => s
    case Arr(items) => JoinElements(items)
    case Obj(_) => "[object Object]"
  }

  /** `String(v)` (or a template literal `${v}`) throws a TypeError: an
      object with an own `toString` property -- never a function in a JSON
      value -- has no usable conversion to a primitive, and an array throws
      when converting one of its elements does. */
  predicate ToStringThrows(v: JsValue): (b: bool)
    ensures b ==> v.Obj? || v.Arr?
    ensures v.Obj? ==> (b <==> "toString" in v.props)
    ensures v.Arr? ==> (b <==> exists i :: 0 <= i < |v.items| && ToStringThrows(v.items[i]))
    decreases v
  {
    match v
    case Obj(props) => "toString" in props
    case Arr(items) => AnyToStringThrows(items)
    case _ => false
  }

  /** Converting some element of `items` throws. */
  predicate AnyToStringThrows(items: seq<JsValue>): (b: bool)
    ensures b <==> exists i :: 0 <= i < |items| && ToStringThrows(items[i])
    decreases items
  {
    if items == [] then false
    else
      assert forall i :: 1 <= i < |items| ==> items[i] == items[1..][i - 1];
      ToStringThrows(items[0]) || AnyToStringThrows(items[1..])
  }

  /** `Array.prototype.join(",")` over the elements' string forms. */
  function JoinElements(items: seq<JsValue>): string
    decreases items
  {
    if items == [] then ""
    else
      var first := if items[0].Undefined? || items[0].Null? then "" else ToJsString(items[0]);
      if |items| == 1 then first else first + "," + JoinElements(items[1..])
  }

  /** The decimal form of an integer, with a leading '-' when negative. */
  function Decimal(n: int): string
  {
    if n < 0 then "-" + Digits(-n) else Digits(n)
  }

  function Digits(n: nat): string
    decreases n
  {
    var last := [(48 + n % 10) as char];
    if n < 10 then last else Digits(n / 10) + last
  }
}
