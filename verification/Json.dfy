/** JSON values as immutable trees; an object's fields are a map from name to value. */
module Json {
  import opened Base

  datatype Json =
    | Null
    | Bool(flag: bool)
    | Number(number: real)
    | Text(text: string)
    | List(items: seq<Json>)
    | Object(fields: map<string, Json>)

  type Fields = map<string, Json>

  function Get(fields: Fields, name: string): Option<Json>
  {
    if name in fields then Some(fields[name]) else None
  }

  /** An order in which an object's entries may be read. */
  ghost predicate Lists(names: seq<string>, m: Fields)
  {
    && (forall name :: name in names <==> name in m)
    && (forall i, j :: 0 <= i < j < |names| ==> names[i] != names[j])
  }
}
