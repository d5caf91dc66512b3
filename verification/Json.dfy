/** JSON values with the indexing and default rules of serde_json. */
module Jsons {
  import opened Wrappers

  datatype Json =
    | Null
    | Bool(b: bool)
    | Number(n: int)
    | Fraction(r: real)
    | Str(text: string)
    | Array(items: seq<Json>)
    | Object(fields: map<string, Json>)

  const EMPTY: Json := Object(map[])

  predicate Has(v: Json, key: string) {
    v.Object? && key in v.fields
  }

  // `v[key]`, null when there is no such field.
  function At(v: Json, key: string): Json {
    if Has(v, key) then v.fields[key] else Null
  }

  // `v[key] = x`, which makes an object of null.
  function With(v: Json, key: string, x: Json): (r: Json)
    ensures r.Object? && Has(r, key) && At(r, key) == x
    ensures forall k :: k != key ==> At(r, k) == At(v, k) && (Has(r, k) <==> Has(v, k))
  {
    Object((if v.Object? then v.fields else map[])[key := x])
  }

  // `as_str().unwrap_or_default()`
  function StrOr(v: Json): string {
    if v.Str? then v.text else ""
  }

  // `as_u64()`
  function U64(v: Json): Option<nat> {
    if v.Number? && 0 <= v.n < 0x1_0000_0000_0000_0000 then Some(v.n) else None
  }

  function ItemsOr(v: Json): seq<Json> {
    if v.Array? then v.items else []
  }

  // Setting only the keys in `from` that exist there.
  function Copied(v: Json, from: Json, keys: seq<string>): (r: Json)
    ensures v.Object? ==> r.Object?
  {
    if keys == [] then v
    else
      var last := keys[|keys| - 1];
      var before := Copied(v, from, keys[..|keys| - 1]);
      if Has(from, last) then With(before, last, At(from, last)) else before
  }

  // Every field of `from` over the fields of `v`.
  function Merged(v: Json, from: Json): Json {
    if from.Object? then Object((if v.Object? then v.fields else map[]) + from.fields) else v
  }
}
