/** JavaScript values as the client sees them after `res.json()`, with the two
    pieces of JavaScript semantics the core relies on: truthiness and reading a
    named property.
 */
module JsValue {

  /** `Some(v)` is a present value; `None` is JavaScript's `undefined` (or `null`
      where the source uses `null` to mean "nothing selected"). */
  datatype Option<+T> = None | Some(value: T) {

    /** The value, or the given default when absent. */
    function GetOr(default: T): T {
      match this
      case Some(v) => v
      case None => default
    }
  }

  /** A parsed JSON document. Numbers are reals (JSON has no NaN or infinity);
      an object keeps its own properties in enumeration order. */
  datatype Json =
    | JNull
    | JBool(b: bool)
    | JNum(n: real)
    | JStr(s: string)
    | JArr(items: seq<Json>)
    | JObj(fields: seq<(string, Json)>)

  /** JavaScript truthiness of a value that may be `undefined`. */
  predicate Truthy(v: Option<Json>) {
    match v
    case None => false
    case Some(j) =>
      match j
      case JNull => false
      case JBool(b) => b
      case JNum(n) => n != 0.0
      case JStr(s) => s != ""
      case JArr(_) => true
      case JObj(_) => true
  }

  /** Index `i` holds the first own property named `key`. */
  predicate FirstKeyAt(fields: seq<(string, Json)>, key: string, i: int) {
    && 0 <= i < |fields|
    && fields[i].0 == key
    && forall k :: 0 <= k < i ==> fields[k].0 != key
  }

  /** Own keys are pairwise distinct, as they are in every JavaScript object. */
  predicate DistinctKeys(fields: seq<(string, Json)>) {
    forall i, j :: 0 <= i < j < |fields| ==> fields[i].0 != fields[j].0
  }

  /** The index of the first own property named `key` at or after `from`. */
  function FindKey(fields: seq<(string, Json)>, key: string, from: nat): (r: Option<nat>)
    requires from <= |fields|
    ensures r.None? <==> forall i :: from <= i < |fields| ==> fields[i].0 != key
    ensures r.Some? ==> from <= r.value < |fields| && fields[r.value].0 == key
    ensures r.Some? ==> forall k :: from <= k < r.value ==> fields[k].0 != key
    decreases |fields| - from
  {
    if from == |fields| then None
    else if fields[from].0 == key then Some(from)
    else FindKey(fields, key, from + 1)
  }

  /** The value of the own property `key`; `key in o` holds exactly when the
      result is present. */
  function Lookup(fields: seq<(string, Json)>, key: string): (r: Option<Json>)
    ensures r.None? <==> forall i :: 0 <= i < |fields| ==> fields[i].0 != key
    ensures r.Some? <==> exists i :: FirstKeyAt(fields, key, i)
    ensures forall i :: FirstKeyAt(fields, key, i) ==> r == Some(fields[i].1)
  {
    match FindKey(fields, key, 0)
    case Some(i) => assert FirstKeyAt(fields, key, i); Some(fields[i].1)
    case None => None
  }

  /** In a JavaScript object the first property named `key` is the only one. */
  lemma {:induction false} DistinctKeysLookup(fields: seq<(string, Json)>, key: string, i: int)
    requires DistinctKeys(fields)
    requires 0 <= i < |fields| && fields[i].0 == key
    ensures Lookup(fields, key) == Some(fields[i].1)
  {
    assert FirstKeyAt(fields, key, i);
  }

  /** `v.key` on a value that is neither `null` nor `undefined`. Only objects
      carry the properties this client reads; a string, number, boolean or
      array yields `undefined` for them. */
  function Get(v: Json, key: string): (r: Option<Json>)
    requires !v.JNull?
    ensures !v.JObj? ==> r.None?
    ensures v.JObj? ==> (r.Some? <==> exists i :: 0 <= i < |v.fields| && v.fields[i].0 == key)
    ensures v.JObj? ==> r == Lookup(v.fields, key)
  {
    match v
    case JObj(fields) => Lookup(fields, key)
    case _ => None
  }
}
