/** Recipes as the meal API delivers them: a JSON object whose keys are
    visited in the order `Object.keys` lists them (insertion order, since
    none of the meal API's keys is integer-like), with a few fixed fields
    (`idMeal`, `strMeal`, ...) and an open-ended family of
    `strIngredientN` / `strMeasureN` fields. */
module Recipes {
  import opened Wrappers

  /** A field value. The meal API sends strings or `null`. */
  datatype JsValue = Null | Str(s: string)

  datatype Field = Field(key: string, value: JsValue)

  /** A recipe object; its fields are listed in key order. */
  datatype Recipe = Recipe(fields: seq<Field>)

  /** JavaScript truthiness of a field read: `undefined` (an absent key),
      `null` and the empty string are falsy, every other string is truthy. */
  predicate Truthy(v: Option<JsValue>)
  {
    v.Some? && v.value.Str? && v.value.s != ""
  }

  /** `recipe[key]`: the value stored under `key`, or None (`undefined`)
      when the object has no such key. */
  function Get(r: Recipe, key: string): (v: Option<JsValue>)
    ensures v.Some? <==> exists i :: 0 <= i < |r.fields| && r.fields[i].key == key
    ensures v.Some? ==> Field(key, v.value) in r.fields
  {
    Find(r.fields, key)
  }

  /** Searches `fields` for `key`; a JavaScript object has no repeated
      keys, so the first hit is the only one. */
  function Find(fields: seq<Field>, key: string): (v: Option<JsValue>)
    ensures v.Some? <==> exists i :: 0 <= i < |fields| && fields[i].key == key
    ensures v.Some? ==> Field(key, v.value) in fields
  {
    if |fields| == 0 then None
    else if fields[0].key == key then Some(fields[0].value)
    else
      var v := Find(fields[1..], key);
      assert forall i :: 1 <= i < |fields| ==> fields[i] == fields[1..][i - 1];
      v
  }

  /** `s.startsWith(p)`. */
  predicate StartsWith(s: string, p: string)
  {
    |p| <= |s| && s[..|p|] == p
  }
}
