/** Decoded JSON values and the Python operations the client applies to them. A loaded
    YAML configuration decodes to the same kinds of values and is held as one too. */
module Json {
  import opened Python
  import Text

  datatype Json =
    | JNull
    | JBool(b: bool)
    | JNum(n: int)
    | JStr(s: string)
    | JArr(items: seq<Json>)
    | JObj(fields: map<string, Json>)

  /** Python truthiness of a decoded JSON value. */
  predicate Truthy(j: Json) {
    match j
    case JNull => false
    case JBool(b) => b
    case JNum(n) => n != 0
    case JStr(s) => s != ""
    case JArr(items) => items != []
    case JObj(fields) => fields != map[]
  }

  /** Python's `key in container` for a string key: key membership for a dict,
      element membership for a list, substring test for a string, and a
      TypeError for every other value. */
  function Contains(container: Json, key: string): (r: Outcome<bool>)
    ensures r.Raised? <==> !(container.JObj? || container.JArr? || container.JStr?)
    ensures r.Raised? ==> r.error == TypeError
    ensures container.JObj? ==> r == Returned(key in container.fields)
    ensures container.JArr? ==> r == Returned(exists i :: 0 <= i < |container.items| && container.items[i] == JStr(key))
    ensures container.JStr? && key != "" ==> (r == Returned(true) <==> exists i :: Text.OccursAt(container.s, key, i))
  {
    match container
    case JObj(fields) => Returned(key in fields)
    case JArr(items) => Returned(JStr(key) in items)
    case JStr(s) => Returned(Text.Occurs(s, key))
    case _ => Raised(TypeError)
  }

  /** Python's `container[key]` for a string key: only a dict holding the key yields a value. */
  function Subscript(container: Json, key: string): (r: Outcome<Json>)
    ensures r.Returned? <==> container.JObj? && key in container.fields
    ensures r.Returned? ==> r.value == container.fields[key]
    ensures r.Raised? ==> r.error == (if container.JObj? then KeyError else TypeError)
  {
    match container
    case JObj(fields) => if key in fields then Returned(fields[key]) else Raised(KeyError)
    case _ => Raised(TypeError)
  }
}
