/** JSON values as `JSON.parse` produces them; object members keep their order. */
module Json {
  import opened Wrappers

  datatype Json =
    | JNull
    | JBool(b: bool)
    | JNumber(n: real)
    | JString(s: string)
    | JArray(items: seq<Json>)
    | JObject(members: seq<(string, Json)>)

  /** The value of `key` in an object's members; `JSON.parse` keeps the last of duplicate keys. */
  function Lookup(members: seq<(string, Json)>, key: string): (r: Option<Json>)
    ensures r.None? <==> forall i :: 0 <= i < |members| ==> members[i].0 != key
    ensures r.Some? ==> exists i :: (0 <= i < |members| && members[i] == (key, r.value) &&
      forall j :: i < j < |members| ==> members[j].0 != key)
  {
    if |members| == 0 then None
    else if members[|members| - 1].0 == key then Some(members[|members| - 1].1)
    else Lookup(members[..|members| - 1], key)
  }

  /** JavaScript falsiness of a parsed JSON value: `null`, `false`, `0` and `""`. */
  predicate Falsy(j: Json)
  {
    j.JNull? || j == JBool(false) || j == JNumber(0.0) || j == JString("")
  }

  /** `body[key]` for an object body; anything else has no fields. */
  function Field(body: Json, key: string): Option<Json>
  {
    if body.JObject? then Lookup(body.members, key) else None
  }

  /** The string held by `body[key]`, if it is present and a string. */
  function StringField(body: Json, key: string): Option<string>
  {
    match Field(body, key)
    case Some(JString(s)) => Some(s)
    case _ => None
  }

  /** A member appended under another key does not change what a key reads. */
  lemma LookupOtherKey(members: seq<(string, Json)>, k: string, v: Json, key: string)
    requires k != key
    ensures Lookup(members + [(k, v)], key) == Lookup(members, key)
  {
    assert (members + [(k, v)])[..|members|] == members;
  }
}
