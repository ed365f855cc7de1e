/**
 * JsonUtils (the Play repository server's `utils.JsonUtils`): helpers on
 * JSON nodes. The template controllers call `removeField` on the library
 * class of the same name, which this one stands for.
 */
module JsonUtils {
  import opened Json

  /**
   * removeField: removes `fieldName` from the object node in place and
   * returns the same node. The Java parameter is a JsonNode cast to
   * ObjectNode; here the parameter type already is the object node.
   */
  method RemoveField(node: ObjectNode, fieldName: string) returns (r: ObjectNode)
    modifies node
    ensures r == node
    ensures node.fields == old(node.fields) - {fieldName}
    ensures fieldName !in node.fields
    ensures node.fields.Keys == old(node.fields).Keys - {fieldName}
    ensures forall k :: k in node.fields ==> node.fields[k] == old(node.fields)[k]
    ensures fieldName !in old(node.fields) ==> node.fields == old(node.fields)
  {
    node.Remove(fieldName);
    r := node;
  }
}
