/** The fragment of JavaScript value semantics the relay depends on:
    JSON values as `express.json()` hands them over, truthiness, property
    access, and the `Number(...)` and template-literal conversions. */
module Js {
  import opened Wrappers

  /** A JavaScript number. Rounding to the nearest double is not modelled:
      a finite number is an exact real. `-0` and `+0` are one value. */
  datatype Number = NaN | Finite(r: real) | PosInfinity | NegInfinity

  /** A JavaScript value as produced by `JSON.parse`, plus `undefined`,
      which stands for a property that is absent. An `Obj` records the
      members in the order of the JSON text, repeats included; the object
      `JSON.parse` builds orders integer-like keys first and keeps a repeated
      key at its first position, a difference only the abstract pretty
      printer could observe. */
  datatype Value =
    | Undefined
    | Null
    | Bool(b: bool)
    | Num(n: Number)
    | Str(s: string)
    | Arr(items: seq<Value>)
    | Obj(fields: seq<(string, Value)>)

  /** The library conversions the model keeps abstract: pretty printing
      with `JSON.stringify(v, null, 2)`, Number::toString and
      StringToNumber (the parse behind `Number("...")`). */
  datatype Runtime = Runtime(
    stringify: Value -> string,
    numberToString: Number -> string,
    stringToNumber: string -> Number)

  /** ToBoolean: the falsy values are `undefined`, `null`, `false`, `NaN`,
      `0` and the empty string; every array and object is truthy. */
  predicate Truthy(v: Value)
    ensures !Truthy(v) <==>
      v == Undefined || v == Null || v == Bool(false) || v == Num(NaN) ||
      v == Num(Finite(0.0)) || v == Str("")
  {
    match v
    case Undefined => false
    case Null => false
    case Bool(b) => b
    case Num(n) => n != NaN && n != Finite(0.0)
    case Str(s) => s != ""
    case Arr(_) => true
    case Obj(_) => true
  }

  /** The values on which `??` falls back to its right operand. */
  predicate Nullish(v: Value) {
    v.Undefined? || v.Null?
  }

  /** The value of member `key`; when a key is repeated the last member
      wins, as it does for `JSON.parse`. */
  function Lookup(fields: seq<(string, Value)>, key: string): (r: Option<Value>)
    ensures r.None? <==> forall i :: 0 <= i < |fields| ==> fields[i].0 != key
    ensures r.Some? ==>
      exists i :: 0 <= i < |fields| && fields[i] == (key, r.value) &&
        forall j :: i < j < |fields| ==> fields[j].0 != key
    decreases |fields|
  {
    if fields == [] then None
    else if fields[|fields| - 1].0 == key then Some(fields[|fields| - 1].1)
    else Lookup(fields[..|fields| - 1], key)
  }

  /** Property access `v.key` for the keys the relay reads (`name`,
      `score`): only an object can carry them, and an absent member reads
      as `undefined`. */
  function Get(v: Value, key: string): (r: Value)
    ensures v.Obj? && (exists i :: 0 <= i < |v.fields| && v.fields[i].0 == key) ==>
      exists i :: 0 <= i < |v.fields| && v.fields[i] == (key, r) &&
        forall j :: i < j < |v.fields| ==> v.fields[j].0 != key
    ensures (!v.Obj? || forall i :: 0 <= i < |v.fields| ==> v.fields[i].0 != key) ==> r == Undefined
  {
    if v.Obj? then
      match Lookup(v.fields, key)
      case Some(x) => x
      case None => Undefined
    else Undefined
  }

  /** The result of a conversion: a value, or the TypeError it throws. */
  datatype Completion<+T> = Normal(value: T) | TypeError

  /** When ToPrimitive throws for a value parsed from JSON. An object with
      its own `toString` member has a non-callable one (JSON cannot hold a
      function), and the inherited `valueOf` returns the object itself, so
      neither gives a primitive. An array's conversion joins its elements,
      so it throws when one of them does. */
  predicate ToPrimitiveThrows(v: Value) {
    match v
    case Obj(fields) => Lookup(fields, "toString").Some?
    case Arr(items) => exists i :: 0 <= i < |items| && ToPrimitiveThrows(items[i])
    case _ => false
  }

  /** ToString, as a template literal `${v}` applies it. A plain object
      reads as "[object Object]". */
  function ToString(rt: Runtime, v: Value): (r: Completion<string>)
    ensures r.TypeError? <==> ToPrimitiveThrows(v)
    ensures v.Str? ==> r == Normal(v.s)
    ensures v.Obj? && !ToPrimitiveThrows(v) ==> r == Normal("[object Object]")
    decreases v, 1
  {
    match v
    case Undefined => Normal("undefined")
    case Null => Normal("null")
    case Bool(b) => Normal(if b then "true" else "false")
    case Num(n) => Normal(rt.numberToString(n))
    case Str(s) => Normal(s)
    case Arr(items) => Join(rt, items)
    case Obj(fields) =>
      if Lookup(fields, "toString").Some? then TypeError else Normal("[object Object]")
  }

  /** Array.prototype.join with the default separator: `null` and
      `undefined` elements contribute the empty string, and the first
      element whose conversion throws aborts the join. */
  function Join(rt: Runtime, items: seq<Value>): (r: Completion<string>)
    ensures r.TypeError? <==> exists i :: 0 <= i < |items| && ToPrimitiveThrows(items[i])
    ensures items == [] ==> r == Normal("")
    ensures |items| == 1 && Nullish(items[0]) ==> r == Normal("")
    ensures |items| == 1 && !Nullish(items[0]) ==> r == ToString(rt, items[0])
    decreases items, 0
  {
    if items == [] then Normal("")
    else
      var first := if Nullish(items[0]) then Normal("") else ToString(rt, items[0]);
      if first.TypeError? then TypeError
      else if |items| == 1 then first
      else
        match Join(rt, items[1..])
        case TypeError => TypeError
        case Normal(rest) => Normal(first.value + "," + rest)
  }

  /** ToNumber, as `Number(v)` applies it. An array or object is first
      turned into its string form (its inherited `valueOf` gives back the
      object itself), and that conversion may throw. */
  function ToNumber(rt: Runtime, v: Value): (r: Completion<Number>)
    ensures r.TypeError? <==> ToPrimitiveThrows(v)
    ensures v == Undefined ==> r == Normal(NaN)
    ensures v == Null || v == Bool(false) ==> r == Normal(Finite(0.0))
    ensures v == Bool(true) ==> r == Normal(Finite(1.0))
    ensures v.Num? ==> r == Normal(v.n)
    ensures v.Str? ==> r == Normal(rt.stringToNumber(v.s))
    ensures v.Obj? && !ToPrimitiveThrows(v) ==> r == Normal(rt.stringToNumber("[object Object]"))
  {
    match v
    case Undefined => Normal(NaN)
    case Null => Normal(Finite(0.0))
    case Bool(b) => Normal(Finite(if b then 1.0 else 0.0))
    case Num(n) => Normal(n)
    case Str(s) => Normal(rt.stringToNumber(s))
    case _ =>
      match ToString(rt, v)
      case TypeError => TypeError
      case Normal(s) => Normal(rt.stringToNumber(s))
  }

  /** `n < bound` for a finite bound: a comparison with `NaN` is false. */
  predicate LessThan(n: Number, bound: real) {
    match n
    case NaN => false
    case Finite(r) => r < bound
    case PosInfinity => false
    case NegInfinity => true
  }
}
