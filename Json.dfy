/** The JSON-like values the workflow utilities work on, and the few pieces of
    JavaScript object semantics they use: truthiness, property access and
    `Object.entries`. Numbers are integers; object entries keep the order in
    which they were stored. */
module Json {
  import opened Wrappers
  import opened Text

  datatype Json =
    | JNull
    | JBool(b: bool)
    | JNum(n: int)
    | JStr(s: string)
    | JArr(items: seq<Json>)
    | JObj(entries: seq<(string, Json)>)

  /** An array of strings, as a JSON array's items. */
  function Strings(xs: seq<string>): (r: seq<Json>)
    ensures |r| == |xs|
    ensures forall i :: 0 <= i < |xs| ==> r[i] == JStr(xs[i])
  {
    if xs == [] then [] else [JStr(xs[0])] + Strings(xs[1..])
  }

  /** JavaScript truthiness: `null`, `false`, `0` and `""` are falsy, every
      array and object is truthy. */
  predicate Truthy(j: Json) {
    match j
    case JNull => false
    case JBool(b) => b
    case JNum(n) => n != 0
    case JStr(s) => s != ""
    case _ => true
  }

  /** Truthiness of a property read that may give `undefined` (`None`). */
  predicate Present(v: Option<Json>) {
    v.Some? && Truthy(v.value)
  }

  /** The value stored under `key` among the entries of an object. */
  function Lookup(entries: seq<(string, Json)>, key: string): (r: Option<Json>)
    ensures r.Some? <==> exists i :: 0 <= i < |entries| && entries[i].0 == key
    ensures r.Some? ==> (key, r.value) in entries
  {
    if entries == [] then None
    else if entries[0].0 == key then Some(entries[0].1)
    else
      var r := Lookup(entries[1..], key);
      assert forall i :: 1 <= i < |entries| ==> entries[i] == entries[1..][i - 1];
      r
  }

  /** `j[key]` for any value but `null`: an object gives its own property and
      every other value `undefined`, since none of the keys read here names a
      property of strings, numbers, booleans or arrays. */
  function Get(j: Json, key: string): (r: Option<Json>)
    ensures !j.JObj? ==> r.None?
  {
    if j.JObj? then Lookup(j.entries, key) else None
  }

  /** `Object.entries(j)` for any value but `null`: the entries of an object,
      index names with elements of an array, index names with one-character
      strings of a string, and nothing for numbers and booleans. */
  function Entries(j: Json): (r: seq<(string, Json)>)
    ensures j.JObj? ==> r == j.entries
    ensures j.JArr? ==> |r| == |j.items|
    ensures j.JArr? ==> forall i :: 0 <= i < |r| ==> r[i] == (NatToString(i), j.items[i])
    ensures j.JStr? ==> |r| == |j.s|
    ensures j.JStr? ==> forall i :: 0 <= i < |r| ==> r[i] == (NatToString(i), JStr([j.s[i]]))
    ensures (j.JNum? || j.JBool? || j.JNull?) ==> r == []
  {
    match j
    case JObj(es) => es
    case JArr(xs) => seq(|xs|, i requires 0 <= i < |xs| => (NatToString(i), xs[i]))
    case JStr(s) => seq(|s|, i requires 0 <= i < |s| => (NatToString(i), JStr([s[i]])))
    case _ => []
  }
}
