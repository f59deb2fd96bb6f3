/** JavaScript values as the orchestrator and the library wrappers read them:
    truthiness, Number() conversion, property reads and the arithmetic on
    scroll positions. Numbers are exact reals or NaN; infinities and
    floating-point rounding are not part of this model. */
module JsValues {
  import opened Numerals

  /** A JavaScript number. */
  datatype Number = Finite(x: real) | NaN

  /** A JavaScript value. Element stands for a DOM element, reduced to the
      top of its bounding client rectangle. */
  datatype Js =
    | Undefined
    | Null
    | Bool(b: bool)
    | Num(n: Number)
    | Str(s: string)
    | Array(items: seq<Js>)
    | Object(props: seq<(string, Js)>)
    | Element(rectTop: real)

  /** ToBoolean: undefined, null, false, 0, NaN and "" are falsy. */
  predicate Truthy(v: Js)
  {
    match v
    case Undefined => false
    case Null => false
    case Bool(b) => b
    case Num(n) => n.Finite? && n.x != 0.0
    case Str(s) => s != ""
    case _ => true
  }

  /** a || b */
  function Or(a: Js, b: Js): (r: Js)
    ensures Truthy(a) ==> r == a
    ensures !Truthy(a) ==> r == b
  {
    if Truthy(a) then a else b
  }

  /** Number(v). Strings are read as decimal numbers; the empty string is 0.
      An empty array is 0, a one-element array converts through its element,
      and a longer array or an object gives NaN. */
  function ToNumber(v: Js): Number
    decreases v, 0
  {
    match v
    case Undefined => NaN
    case Null => Finite(0.0)
    case Bool(b) => Finite(if b then 1.0 else 0.0)
    case Num(n) => n
    case Str(s) =>
      if s == "" then Finite(0.0)
      else if IsNumericString(s) then Finite(RealPrefix(s))
      else NaN
    case Array(items) =>
      if items == [] then Finite(0.0)
      else if |items| == 1 then ElementNumber(items[0])
      else NaN
    case _ => NaN
  }

  /** Number of a one-element array: the array becomes the string of its
      element (undefined and null become ""), which is then read back.
      The string of a number reads back as that number, the string of an
      array is that array's own join, and "true", "false" and
      "[object ...]" read as NaN. */
  function ElementNumber(e: Js): Number
    decreases e, 1
  {
    match e
    case Undefined => Finite(0.0)
    case Null => Finite(0.0)
    case Num(n) => n
    case Str(_) => ToNumber(e)
    case Array(_) => ToNumber(e)
    case _ => NaN
  }

  /** Number(v) || fallback: the number when it is finite and not zero. */
  function NumberOr(v: Js, fallback: real): (r: real)
    ensures ToNumber(v).Finite? && ToNumber(v).x != 0.0 ==> r == ToNumber(v).x
    ensures ToNumber(v) == NaN || ToNumber(v) == Finite(0.0) ==> r == fallback
  {
    var n := ToNumber(v);
    if n.Finite? && n.x != 0.0 then n.x else fallback
  }

  /** v.key for an object; undefined for every other value. */
  function Prop(v: Js, key: string): (r: Js)
    ensures !v.Object? ==> r == Undefined
  {
    if v.Object? then Lookup(v.props, key) else Undefined
  }

  /** The first property with the key, or undefined. */
  function Lookup(props: seq<(string, Js)>, key: string): (r: Js)
    ensures (forall i :: 0 <= i < |props| ==> props[i].0 != key) ==> r == Undefined
  {
    if props == [] then Undefined
    else if props[0].0 == key then props[0].1
    else Lookup(props[1..], key)
  }

  /** a - b */
  function Sub(a: Number, b: Number): Number
  {
    if a.Finite? && b.Finite? then Finite(a.x - b.x) else NaN
  }

  /** Math.max(0, a): NaN stays NaN. */
  function MaxZero(a: Number): (r: Number)
    ensures r == NaN || r.x >= 0.0
    ensures a.Finite? ==> r.Finite? && r.x >= a.x && (a.x >= 0.0 ==> r == a)
    ensures a.Finite? && a.x < 0.0 ==> r == Finite(0.0)
    ensures a.NaN? ==> r == NaN
  {
    if a.NaN? then NaN else if a.x >= 0.0 then a else Finite(0.0)
  }

  function Min(a: real, b: real): real { if a <= b then a else b }
  function Max(a: real, b: real): real { if a >= b then a else b }
}
