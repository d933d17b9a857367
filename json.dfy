/** JSON values as `JSON.parse` produces them, with the JavaScript notions the gateway applies
    to them: property access, truthiness and `typeof … === "object"`. */
module Json {
  import opened Wrappers
  import opened Strings

  datatype Json =
    | JNull
    | JBool(b: bool)
    | JNumber(n: real)
    | JString(s: string)
    | JArray(items: seq<Json>)
    | JObject(fields: seq<(string, Json)>)

  /** `value.key` on a parsed value: the member of an object, `undefined` (None) otherwise. */
  function Get(value: Json, key: string): (r: Option<Json>)
    ensures r.Some? ==> value.JObject? && exists i :: 0 <= i < |value.fields| && value.fields[i] == (key, r.value)
  {
    if value.JObject? then Lookup(value.fields, key) else None
  }

  function Lookup(fields: seq<(string, Json)>, key: string): (r: Option<Json>)
    ensures r.Some? ==> exists i :: 0 <= i < |fields| && fields[i] == (key, r.value)
    ensures r.None? <==> forall i :: 0 <= i < |fields| ==> fields[i].0 != key
  {
    if fields == [] then None
    else if fields[0].0 == key then Some(fields[0].1)
    else Lookup(fields[1..], key)
  }

  /** The number stored under `key`, when `typeof value.key === "number"`. */
  function NumberField(value: Json, key: string): Option<real> {
    match Get(value, key)
    case Some(JNumber(n)) => Some(n)
    case _ => None
  }

  /** JavaScript truthiness of a value that may be `undefined` (NaN is not modelled). */
  predicate Truthy(value: Option<Json>) {
    match value
    case None => false
    case Some(JNull) => false
    case Some(JBool(b)) => b
    case Some(JNumber(n)) => n != 0.0
    case Some(JString(s)) => s != []
    case Some(_) => true
  }

  /** `typeof v === "object" && v !== null`: arrays and objects. */
  predicate IsObjectLike(value: Json) {
    value.JArray? || value.JObject?
  }

  /** `Object.entries(v)` for an object or array (arrays list their indices as names). */
  function Entries(value: Json): (r: seq<(string, Json)>)
    ensures value.JObject? ==> r == value.fields
    ensures value.JArray? ==> |r| == |value.items|
  {
    match value
    case JObject(fields) => fields
    case JArray(items) => seq(|items|, i requires 0 <= i < |items| => (NatToDecimal(i), items[i]))
    case JString(s) => seq(|s|, i requires 0 <= i < |s| => (NatToDecimal(i), JString([s[i]])))
    case _ => []
  }

  /** A member appended after the others is invisible to lookups of any other name. */
  lemma {:induction false} LookupIgnoresAppended(fields: seq<(string, Json)>, other: (string, Json), key: string)
    requires other.0 != key
    ensures Lookup(fields + [other], key) == Lookup(fields, key)
  {
    if fields != [] {
      assert (fields + [other])[1..] == fields[1..] + [other];
      LookupIgnoresAppended(fields[1..], other, key);
    }
  }
}
