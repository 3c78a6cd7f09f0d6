/** The abstract key/value document behind org.json's JSONObject. */
module Json {

  /** A JSON value. JNull is the JSONObject.NULL sentinel. */
  datatype JVal =
    | JStr(s: string)
    | JInt(i: int)
    | JBool(b: bool)
    | JNull
    | JArr(elems: seq<JVal>)
    | JObj(fields: map<string, JVal>)

  /** A JSON object: an unordered map from keys to values. */
  type JObject = map<string, JVal>

  /** JSONObject.put(key, value) for a non-null value: the key is added or overwritten,
      every other key keeps its value. */
  function Put(o: JObject, key: string, v: JVal): (r: JObject)
    ensures r.Keys == o.Keys + {key}
    ensures key in r && r[key] == v
    ensures forall k :: k in o && k != key ==> r[k] == o[k]
  {
    o[key := v]
  }
}
