/** The part of JavaScript's value model that the photographer relies on:
    the values a configuration object or a photo record may hold, the
    truthiness test behind `!x`, `x || y` and `x && y`, and the shallow
    copying helper `extend`. */
module JsValues {

  /** A JavaScript value. Numbers are modelled as integers; objects are
      known only by identity, split into the three roles the photographer
      cares about: a DOM element, a function and any other object. */
  datatype Value =
    | Undefined
    | Null
    | Bool(b: bool)
    | Num(n: int)
    | Str(s: string)
    | Element(id: nat)
    | Callable(id: nat)
    | Plain(id: nat)

  /** ToBoolean (section 7.1.2 of ECMA-262): `undefined`, `null`, `false`,
      `0` and `""` are falsy, every object is truthy. */
  predicate Truthy(v: Value) {
    match v
    case Undefined => false
    case Null => false
    case Bool(b) => b
    case Num(n) => n != 0
    case Str(s) => s != ""
    case _ => true
  }

  /** An object, seen through its own enumerable properties. */
  type JsObject = map<string, Value>

  /** Property read: a property the object does not have reads as `undefined`. */
  function Lookup(o: JsObject, key: string): Value {
    if key in o then o[key] else Undefined
  }

  /** The one key whose assignment on a fresh object does not create an own
      property: it runs the `__proto__` setter inherited from
      `Object.prototype` instead. */
  const ProtoKey: string := "__proto__"

  /** The own properties left by `extend(target, obj)`: every own key of
      either argument except `__proto__`, with the value from `obj` wherever
      both have the key, whatever that value is (`null` and `undefined`
      included). */
  function Merge(target: JsObject, obj: JsObject): (r: JsObject)
    ensures r.Keys == (target.Keys + obj.Keys) - {ProtoKey}
    ensures forall k | k in obj && k != ProtoKey :: r[k] == obj[k]
    ensures forall k | k in target && k !in obj && k != ProtoKey :: r[k] == target[k]
  {
    (target + obj) - {ProtoKey}
  }

  /** An own-property read on a merged object: the second argument's own
      property when it has one, otherwise whatever the first one gives; the
      merged object never has an own `__proto__`. */
  lemma MergeLookup(target: JsObject, obj: JsObject, key: string)
    ensures ProtoKey !in Merge(target, obj)
    ensures key != ProtoKey ==>
      Lookup(Merge(target, obj), key) == if key in obj then obj[key] else Lookup(target, key)
  {
  }

  /** `extend(x)` with no second argument copies every own property of `x`
      but `__proto__`. */
  lemma MergeWithNothingCopies(x: JsObject)
    ensures Merge(x, map[]) == x - {ProtoKey}
  {
  }

  /** `extend` as the source writes it: a fresh object filled by one
      `for…in` loop over the own keys of `target`, then one over the own
      keys of `obj`. Assigning the key `__proto__` creates no property, so
      it is skipped here. The arguments are values, so neither is modified. */
  method Extend(target: JsObject, obj: JsObject) returns (extended: JsObject)
    ensures extended == Merge(target, obj)
  {
    extended := map[];
    var todo := target.Keys;
    while todo != {}
      invariant todo <= target.Keys
      invariant extended.Keys == (target.Keys - todo) - {ProtoKey}
      invariant forall k | k in extended :: extended[k] == target[k]
      decreases todo
    {
      var key :| key in todo;
      if key != ProtoKey {
        extended := extended[key := target[key]];
      }
      todo := todo - {key};
    }
    todo := obj.Keys;
    while todo != {}
      invariant todo <= obj.Keys
      invariant extended.Keys == (target.Keys + (obj.Keys - todo)) - {ProtoKey}
      invariant forall k | k in extended :: extended[k] == if k in obj && k !in todo then obj[k] else target[k]
      decreases todo
    {
      var key :| key in todo;
      if key != ProtoKey {
        extended := extended[key := obj[key]];
      }
      todo := todo - {key};
    }
  }
}
