/** JavaScript values as the content client sees them: what `JSON.parse` or the
    SDK can hand back, `undefined`, and the built-in method an array exposes
    under the name `entries`. Numbers are integers (no NaN, no fractions). */
module JsValue {
  import opened JsString

  datatype Value =
    | Undefined
    | Null
    | Bool(b: bool)
    | Num(n: int)
    | Str(s: string)
    | Arr(items: seq<Value>)
    | Obj(props: seq<(string, Value)>)
    | BuiltinMethod(name: string, arity: nat)

  predicate Nullish(v: Value) {
    v.Undefined? || v.Null?
  }

  /** JavaScript truthiness, `!!v`. */
  predicate Truthy(v: Value) {
    match v
    case Undefined => false
    case Null => false
    case Bool(b) => b
    case Num(n) => n != 0
    case Str(s) => s != []
    case _ => true
  }

  /** The value stored under key among an object's own properties, `undefined`
      when absent. An object's keys are taken to be distinct, as they are in
      any object `JSON.parse` builds, so the first binding is the only one. */
  function Lookup(props: seq<(string, Value)>, key: string): (r: Value)
    ensures r != Undefined ==> exists i :: 0 <= i < |props| && props[i] == (key, r)
  {
    if props == [] then Undefined
    else if props[0].0 == key then props[0].1
    else Lookup(props[1..], key)
  }

  /** An own data property of a plain object; `undefined` for anything else. */
  function OwnField(v: Value, key: string): Value {
    if v.Obj? then Lookup(v.props, key) else Undefined
  }

  /** The property read `v[key]`: an object's own fields, the `length` of arrays,
      strings and functions, and the `entries` method every array inherits from
      `Array.prototype`. Reading a property of null or undefined throws, which
      callers model themselves. Other inherited members are not modelled. */
  function Get(v: Value, key: string): Value
    requires !Nullish(v)
  {
    match v
    case Arr(items) =>
      if key == "length" then Num(|items|)
      else if key == "entries" then BuiltinMethod("entries", 0)
      else Undefined
    case Str(s) => if key == "length" then Num(|s|) else Undefined
    case BuiltinMethod(_, arity) => if key == "length" then Num(arity) else Undefined
    case Obj(props) => Lookup(props, key)
    case _ => Undefined
  }

  /** The property names of an object, in insertion order. `Object.keys`
      lists integer-like names first, in ascending order; the objects this
      model reads have no such names, so insertion order is their order. */
  function PropNames(props: seq<(string, Value)>): (ks: seq<string>)
    ensures |ks| == |props| && forall i :: 0 <= i < |ks| ==> ks[i] == props[i].0
  {
    if props == [] then [] else [props[0].0] + PropNames(props[1..])
  }

  /** The index names "0", "1", ... of an array or string of length n. */
  function IndexNames(n: nat): (ks: seq<string>)
    ensures |ks| == n && forall i :: 0 <= i < n ==> ks[i] == Decimal(i)
  {
    if n == 0 then [] else IndexNames(n - 1) + [Decimal(n - 1)]
  }

  /** `Object.keys(v)` for a value that is not null or undefined. */
  function Keys(v: Value): seq<string>
    requires !Nullish(v)
  {
    match v
    case Obj(props) => PropNames(props)
    case Arr(items) => IndexNames(|items|)
    case Str(s) => IndexNames(|s|)
    case _ => []
  }

  /** `String(v)`, the conversion `localStorage.setItem` applies to its value. */
  function StringForm(v: Value): string {
    match v
    case Undefined => "undefined"
    case Null => "null"
    case Bool(b) => if b then "true" else "false"
    case Num(n) => if n >= 0 then Decimal(n) else "-" + Decimal(-n)
    case Str(s) => s
    case Arr(items) =>
      Join(seq(|items|, i requires 0 <= i < |items| =>
             if Nullish(items[i]) then "" else StringForm(items[i])), ',')
    case Obj(_) => "[object Object]"
    case BuiltinMethod(name, _) => "function " + name + "() { [native code] }"
  }
}
