/** The payload normalisation applied to each library response: the raw JSON
    of the artists, albums or songs request becomes the list the modal shows,
    or stays `undefined`. The three copies in the client differ only in the
    expected property name, which is the `key` parameter here.
 */
module Normalization {
  import opened JsValue

  /** The outcome of one normalisation block: the variable stays `undefined`,
      it is set to a list, or the `in` test raises a TypeError (the payload is
      a truthy string, number or boolean). */
  datatype Normalized = Undefined | Items(list: seq<Json>) | Threw

  /** Index `i` holds an array-valued property. */
  predicate ArrayAt(fields: seq<(string, Json)>, i: int) {
    0 <= i < |fields| && fields[i].1.JArr?
  }

  /** Index `i` holds the first array-valued property in enumeration order. */
  predicate FirstArrayAt(fields: seq<(string, Json)>, i: int) {
    && ArrayAt(fields, i)
    && forall k :: 0 <= k < i ==> !ArrayAt(fields, k)
  }

  /** The scan of `Object.values(o).find(v => Array.isArray(v))` from index
      `from` on: the index of the first array-valued property, if any. */
  function FindArray(fields: seq<(string, Json)>, from: nat): (r: Option<nat>)
    requires from <= |fields|
    ensures r.None? <==> forall i :: from <= i ==> !ArrayAt(fields, i)
    ensures r.Some? ==> from <= r.value && ArrayAt(fields, r.value)
    ensures r.Some? ==> forall k :: from <= k < r.value ==> !ArrayAt(fields, k)
    decreases |fields| - from
  {
    if from == |fields| then None
    else if ArrayAt(fields, from) then Some(from)
    else FindArray(fields, from + 1)
  }

  /** The items of the first array-valued property, if any. */
  function FirstArray(fields: seq<(string, Json)>): (r: Option<seq<Json>>)
    ensures r.None? <==> forall i :: !ArrayAt(fields, i)
    ensures forall i :: FirstArrayAt(fields, i) ==> r == Some(fields[i].1.items)
  {
    match FindArray(fields, 0)
    case Some(i) => Some(fields[i].1.items)
    case None => None
  }

  /** The property named `key` exists and holds an array. */
  predicate NamedArray(fields: seq<(string, Json)>, key: string) {
    exists i :: 0 <= i < |fields| && FirstKeyAt(fields, key, i) && fields[i].1.JArr?
  }

  /** The object case of a block: the property `key` when it is an array,
      else the first array-valued property, else `undefined`. */
  function NormalizeObject(fields: seq<(string, Json)>, key: string): (r: Normalized)
    ensures !r.Threw?
    ensures forall i :: FirstKeyAt(fields, key, i) && fields[i].1.JArr? ==> r == Items(fields[i].1.items)
    ensures !NamedArray(fields, key) ==> (r.Undefined? <==> forall i :: !ArrayAt(fields, i))
    ensures !NamedArray(fields, key) ==> forall i :: FirstArrayAt(fields, i) ==> r == Items(fields[i].1.items)
  {
    match Lookup(fields, key)
    case Some(JArr(xs)) => Items(xs)
    case _ =>
      match FirstArray(fields)
      case Some(xs) => Items(xs)
      case None => Undefined
  }

  /** One normalisation block: a falsy payload leaves the result `undefined`;
      an array is used as it is; an object is searched by `NormalizeObject`;
      any other truthy payload makes `key in raw` throw a TypeError. */
  function Normalize(raw: Option<Json>, key: string): (r: Normalized)
    ensures r.Threw? <==> Truthy(raw) && !raw.value.JArr? && !raw.value.JObj?
    ensures !Truthy(raw) ==> r.Undefined?
    ensures raw.Some? && raw.value.JArr? ==> r == Items(raw.value.items)
    ensures raw.Some? && raw.value.JObj? ==> r == NormalizeObject(raw.value.fields, key)
  {
    if !Truthy(raw) then Undefined
    else
      match raw.value
      case JArr(xs) => Items(xs)
      case JObj(fields) => NormalizeObject(fields, key)
      case _ => Threw
  }

  /** The named property wins over the scan: in an object whose property `key`
      is an array, that array is the result even when an earlier property is
      an array too. */
  lemma NamedBeatsScan(fields: seq<(string, Json)>, key: string, i: int, j: int)
    requires DistinctKeys(fields)
    requires 0 <= i < j < |fields|
    requires ArrayAt(fields, i)
    requires fields[j].0 == key && fields[j].1.JArr?
    ensures Normalize(Some(JObj(fields)), key) == Items(fields[j].1.items)
    ensures fields[i].1 != fields[j].1 ==> Normalize(Some(JObj(fields)), key) != Items(fields[i].1.items)
  {
    assert FirstKeyAt(fields, key, j);
  }

  /** A property named `key` that is not an array is passed over: the result is
      the first array-valued property, as if `key` were absent. */
  lemma NamedNonArraySkipped(fields: seq<(string, Json)>, key: string, i: int, j: int)
    requires DistinctKeys(fields)
    requires 0 <= j < |fields| && fields[j].0 == key && !fields[j].1.JArr?
    requires FirstArrayAt(fields, i)
    ensures Normalize(Some(JObj(fields)), key) == Items(fields[i].1.items)
  {
    assert FirstKeyAt(fields, key, j);
    assert !NamedArray(fields, key);
  }

  /** The result is `undefined`, never an empty list, exactly when the payload
      is falsy or is an object without an array-valued property. */
  lemma UndefinedIff(raw: Option<Json>, key: string)
    ensures Normalize(raw, key).Undefined? <==>
              || !Truthy(raw)
              || (raw.value.JObj? && forall i :: !ArrayAt(raw.value.fields, i))
  {
    if Truthy(raw) && raw.value.JObj? {
      var fields := raw.value.fields;
      if NamedArray(fields, key) {
        var i :| 0 <= i < |fields| && FirstKeyAt(fields, key, i) && fields[i].1.JArr?;
        assert ArrayAt(fields, i);
      }
    }
  }

  /** A result list always comes from the payload: it is the payload itself or
      the value of one of its own properties. */
  lemma ItemsComeFromPayload(raw: Option<Json>, key: string)
    requires Normalize(raw, key).Items?
    ensures || raw == Some(JArr(Normalize(raw, key).list))
            || (raw.value.JObj? && exists i :: 0 <= i < |raw.value.fields| && raw.value.fields[i].1 == JArr(Normalize(raw, key).list))
  {
    var r := Normalize(raw, key);
    if raw.value.JObj? {
      var fields := raw.value.fields;
      if NamedArray(fields, key) {
        var i :| 0 <= i < |fields| && FirstKeyAt(fields, key, i) && fields[i].1.JArr?;
        assert fields[i].1 == JArr(r.list);
      } else {
        var i := FindArray(fields, 0).value;
        assert fields[i].1 == JArr(r.list);
      }
    }
  }

  /** An object whose only property is an array yields that array, whatever
      the property is called. */
  lemma LoneArrayAnyKey(k: string, key: string, x: seq<Json>)
    ensures Normalize(Some(JObj([(k, JArr(x))])), key) == Items(x)
  {
    assert FirstArrayAt([(k, JArr(x))], 0);
  }

  /** Small payloads: a named array after a string property is found; an
      object with no array, empty or not, leaves the result `undefined` rather
      than an empty list; a bare string payload throws. */
  lemma Examples(x: seq<Json>)
    ensures Normalize(Some(JObj([("foo", JStr("bar")), ("artists", JArr(x))])), "artists") == Items(x)
    ensures Normalize(Some(JObj([("foo", JArr(x))])), "songs") == Items(x)
    ensures Normalize(Some(JObj([])), "albums") == Undefined
    ensures Normalize(Some(JObj([("foo", JStr("bar"))])), "albums") == Undefined
    ensures Normalize(Some(JStr("oops")), "artists") == Threw
  {
    assert FirstKeyAt([("foo", JStr("bar")), ("artists", JArr(x))], "artists", 1);
    assert FirstArrayAt([("foo", JArr(x))], 0);
  }
}
