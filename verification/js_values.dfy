/**
  The fragment of JavaScript values that a gluppy configuration object is built
  from. `null` is deliberately absent: `typeof null` is `'object'` in JavaScript,
  so a null `paths` or `paths.dest` passes the first type test and then crashes
  on the property access; the model rules that input out by construction.
 */
module JsValues {

  datatype JsValue =
    | JsUndefined
    | JsBool(b: bool)
    | JsNumber(n: int)
    | JsString(s: string)
    | JsArray(elems: seq<JsValue>)
    | JsObject(props: map<string, JsValue>)

  /** `typeof v === 'object'`: plain objects and arrays (null is not a JsValue). */
  predicate IsObjectType(v: JsValue) {
    v.JsObject? || v.JsArray?
  }

  /** `v[key]` for a named property: a missing property reads as `undefined`. */
  function Get(v: JsValue, key: string): (r: JsValue)
    ensures v.JsObject? && key in v.props ==> r == v.props[key]
    ensures !(v.JsObject? && key in v.props) ==> r == JsUndefined
  {
    if v.JsObject? && key in v.props then v.props[key] else JsUndefined
  }

  /** `v[key] = x` on an object; every other property keeps its value. */
  function Set(v: JsValue, key: string, x: JsValue): (r: JsValue)
    requires v.JsObject?
    ensures r.JsObject? && Get(r, key) == x
    ensures r.props.Keys == v.props.Keys + {key}
    ensures forall k :: k in v.props && k != key ==> Get(r, k) == Get(v, k)
  {
    JsObject(v.props[key := x])
  }
}
