/** The already-parsed, client-defined JSON value that a dynamic-content field such as
    `settings` carries. The message classes store it and compare it but never look inside. */
module Json {
  import opened JavaLang

  /** A JSON value. Objects are maps, so two objects with the same members are the same value
      whatever order their keys were written in; arrays keep their element order. Numbers
      are exact rationals. */
  datatype Json =
    | JNull
    | JBool(b: bool)
    | JNumber(n: real)
    | JString(s: Str)
    | JArray(elements: seq<Json>)
    | JObject(members: map<Str, Json>)

  /** Arrays compare positionally: the same elements in another order are another value. */
  lemma ArrayOrderMatters(x: Json, y: Json)
    requires x != y
    ensures JArray([x, y]) != JArray([y, x])
  {
    assert JArray([x, y]).elements[0] != JArray([y, x]).elements[0];
  }

  /** Objects compare by members: adding the same members in either order gives equal values. */
  lemma ObjectKeyOrderIrrelevant(k1: Str, v1: Json, k2: Str, v2: Json)
    requires k1 != k2
    ensures JObject(map[k1 := v1][k2 := v2]) == JObject(map[k2 := v2][k1 := v1])
  {
    assert map[k1 := v1][k2 := v2] == map[k2 := v2][k1 := v1];
  }
}
