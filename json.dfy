/** JSON documents as values, and the mutable tree node (Jackson's ObjectNode)
    that the domain projection edits in place. */
module Json {
  import opened Wrappers

  /** A JSON value. Numbers are integers only. A missing field is the absence
      of a key in `JObject`; an explicit `null` is `JNull`. */
  datatype Json =
    | JNull
    | JBool(b: bool)
    | JNumber(n: int)
    | JString(s: string)
    | JArray(items: seq<Json>)
    | JObject(fields: map<string, Json>)

  /** `node.get(name)`: the field's value for an object node that has it;
      absent for a missing field and for every node that is not an object. */
  function Get(node: Json, name: string): (r: Option<Json>)
    ensures r.Some? <==> node.JObject? && name in node.fields
    ensures r.Some? ==> r.value == node.fields[name]
  {
    if node.JObject? && name in node.fields then Some(node.fields[name]) else None
  }

  /** A mutable JSON node. Every node handed out by a getter is a fresh one
      of these, so a caller that edits it edits nobody else's data. */
  class JsonNode {
    var tree: Json

    constructor (tree: Json)
      ensures this.tree == tree
    {
      this.tree := tree;
    }

    /** `deepCopy()`: a fresh node holding an equal document. */
    method DeepCopy() returns (c: JsonNode)
      ensures fresh(c) && c.tree == tree
    {
      c := new JsonNode(tree);
    }

    /** `ObjectNode.remove(name)`: drops the field and returns what it held
        (absent when there was no such field). */
    method Remove(name: string) returns (removed: Option<Json>)
      requires tree.JObject?
      modifies this
      ensures removed == Get(old(tree), name)
      ensures tree == JObject(old(tree).fields - {name})
    {
      removed := Get(tree, name);
      tree := JObject(tree.fields - {name});
    }

    /** `ObjectNode.setAll(other)`: copies every field of `other` into this
        node, overwriting fields of the same name. */
    method SetAll(other: map<string, Json>)
      requires tree.JObject?
      modifies this
      ensures tree == JObject(old(tree).fields + other)
    {
      tree := JObject(tree.fields + other);
    }

    /** `ObjectNode.set(name, value)`: adds or replaces one field. */
    method Put(name: string, value: Json)
      requires tree.JObject?
      modifies this
      ensures tree == JObject(old(tree).fields[name := value])
    {
      tree := JObject(tree.fields[name := value]);
    }
  }
}
