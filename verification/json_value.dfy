/** JSON values. */
module JsonValue {
  /** An object maps names to values; a number is its literal. */
  datatype Json =
    | Null
    | Bool(b: bool)
    | Number(literal: string)
    | String(s: string)
    | Array(items: seq<Json>)
    | Object(members: map<string, Json>)
}
