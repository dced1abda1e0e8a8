/** JSON values as both sides of the wire see them. An object keeps its
    members in order, as JavaScript objects and JSON text do. */
module Json {
  import opened Wrappers

  datatype Json =
    | JNull
    | JBool(b: bool)
    | JNumber(n: real)
    | JString(s: string)
    | JArray(items: seq<Json>)
    | JObject(members: seq<(string, Json)>)

  /** The value of the last member named `key`; JSON.parse and Python's json
      both keep the last of repeated keys. */
  function Member(members: seq<(string, Json)>, key: string): Option<Json> {
    if members == [] then None
    else if members[|members| - 1].0 == key then Some(members[|members| - 1].1)
    else Member(members[..|members| - 1], key)
  }
}
