/**
 * The parsed JSON tree the converter walks. Parsing itself is done by a
 * library outside this model; an object keeps its properties in document
 * order, and an array its items.
 */
module Json {

  datatype Json =
    | JNull
    | JBool(b: bool)
    | JNumber(literal: string)
    | JString(s: string)
    | JArray(items: seq<Json>)
    | JObject(props: seq<(string, Json)>)

  /** The value kinds of the JSON library, `true` and `false` being kinds of their own. */
  datatype Kind = Object | Array | String | Number | True | False | Null

  function KindOf(j: Json): Kind
  {
    match j
    case JNull => Null
    case JBool(b) => if b then True else False
    case JNumber(_) => Number
    case JString(_) => String
    case JArray(_) => Array
    case JObject(_) => Object
  }

  /*
   * Sizes bound the recursion of every walk over the tree: an object's
   * properties, and an array's first item, are smaller than the value.
   */

  function Size(j: Json): nat
  {
    match j
    case JArray(items) => 1 + ItemsSize(items)
    case JObject(props) => 1 + PropsSize(props)
    case _ => 1
  }

  function ItemsSize(items: seq<Json>): nat
  {
    if |items| == 0 then 0 else Size(items[0]) + ItemsSize(items[1..])
  }

  function PropSize(p: (string, Json)): nat
  {
    1 + Size(p.1)
  }

  function PropsSize(props: seq<(string, Json)>): nat
  {
    if |props| == 0 then 0 else PropSize(props[0]) + PropsSize(props[1..])
  }
}
