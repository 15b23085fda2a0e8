/** JavaScript values and plain objects, as far as the SDK builds and merges them. */
module Js {

  /** A JSON-like JavaScript value. Numbers never occur in the records the SDK builds. */
  datatype Value =
    | Null
    | Bool(b: bool)
    | Str(s: string)
    | Obj(fields: map<string, Value>)

  /** A plain object: its own enumerable keys and their values. */
  type JsObject = map<string, Value>

  /** JavaScript truthiness: `null`, `false` and `""` are falsy; every object is truthy. */
  predicate Truthy(v: Value) {
    match v
    case Null => false
    case Bool(b) => b
    case Str(s) => s != ""
    case Obj(_) => true
  }

  /** `a && b`: the first operand when it is falsy, otherwise the second. */
  function And(a: Value, b: Value): Value {
    if Truthy(a) then b else a
  }

  /** `a || b`: the first operand when it is truthy, otherwise the second. */
  function Or(a: Value, b: Value): Value {
    if Truthy(a) then a else b
  }

  /** `c ? a : b`. */
  function Cond(c: Value, a: Value, b: Value): Value {
    if Truthy(c) then a else b
  }

  /** Property access `v.key`; a missing property reads as `null`, which behaves as
      `undefined` does under the operators above. */
  function Prop(v: Value, key: string): Value {
    if v.Obj? && key in v.fields then v.fields[key] else Null
  }

  /** Object spread `{...base, ...over}`: a shallow merge in which `over` wins on every key it has. */
  function Merge(base: JsObject, over: JsObject): JsObject {
    base + over
  }

  /** The merge law: the result has the keys of both objects, every key of `over` takes
      `over`'s value and every other key keeps `base`'s. */
  lemma MergeLaw(base: JsObject, over: JsObject)
    ensures Merge(base, over).Keys == base.Keys + over.Keys
    ensures forall k :: k in over ==> Merge(base, over)[k] == over[k]
    ensures forall k :: k in base && k !in over ==> Merge(base, over)[k] == base[k]
  {
  }

  /** Spreading an object literal with two keys is updating those two keys in turn. */
  lemma MergePair(base: JsObject, a: string, x: Value, b: string, y: Value)
    ensures Merge(base, map[a := x, b := y]) == base[a := x][b := y]
  {
  }

  /** Spreading one object after another is spreading their merge. */
  lemma MergeAssociative(a: JsObject, b: JsObject, c: JsObject)
    ensures Merge(Merge(a, b), c) == Merge(a, Merge(b, c))
  {
  }
}
