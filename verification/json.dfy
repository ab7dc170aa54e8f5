/** The JSON values the client sends and receives (`serde_json::Value`). Objects are maps:
    `serde_json` keeps object members keyed by name, so member order carries no meaning. */
module Json {

  datatype Json =
    | Null
    | Bool(b: bool)
    | Int(i: int)
    | Str(s: string)
    | Arr(items: seq<Json>)
    | Obj(fields: map<string, Json>)
}
