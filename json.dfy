/** A JSON value as `encoding/json` decodes it into Go's `any`: objects
    become maps, arrays become slices. Numbers keep their literal text,
    which none of the handlers inspects. */
module Json {

  datatype Value =
    | Null
    | Bool(b: bool)
    | Number(literal: string)
    | String(s: string)
    | Array(items: seq<Value>)
    | Object(members: map<string, Value>)
}
