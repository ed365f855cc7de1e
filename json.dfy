/**
 * JSON documents as the server handles them (Jackson's JsonNode tree).
 * A document is the key/value map of a JSON object; an ObjectNode is a
 * mutable object node whose map is replaced in place.
 */
module Json {
  import opened Wrappers

  /** A JSON value. Numbers keep their lexical text; arithmetic on them is never needed here. */
  datatype Json =
    | JNull
    | JBool(b: bool)
    | JNumber(text: string)
    | JString(s: string)
    | JArray(items: seq<Json>)
    | JObject(members: map<string, Json>)

  /** The members of a JSON object. */
  type Doc = map<string, Json>

  /** Jackson's `asText()`: the text of a scalar node, "" for a container node. */
  function AsText(j: Json): string
  {
    match j
    case JNull => "null"
    case JBool(b) => if b then "true" else "false"
    case JNumber(t) => t
    case JString(s) => s
    case JArray(_) => ""
    case JObject(_) => ""
  }

  /** A JSON object node that methods update in place (Jackson's ObjectNode). */
  class ObjectNode {
    var fields: Doc

    constructor (init: Doc)
      ensures fields == init
    {
      fields := init;
    }

    /** `ObjectNode.get(key)`: the member, or None (Java null) when the key is absent. */
    function Get(key: string): Option<Json>
      reads this
    {
      if key in fields then Some(fields[key]) else None
    }

    /** `ObjectNode.put(key, value)`: adds the member or overwrites its value. */
    method Put(key: string, value: Json)
      modifies this
      ensures fields == old(fields)[key := value]
    {
      fields := fields[key := value];
    }

    /** `ObjectNode.remove(key)`: drops the member if present. */
    method Remove(key: string)
      modifies this
      ensures fields == old(fields) - {key}
    {
      fields := fields - {key};
    }
  }
}
