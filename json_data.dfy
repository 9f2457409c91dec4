/**
 * The structured values that travel between the reasoning server and the web client:
 * what `json.loads` produces on the server and what `JSON.parse` produces in the
 * browser. Numbers are integers in this model.
 */
module JsonData {

  datatype Json =
    | Null
    | Bool(b: bool)
    | Num(n: int)
    | Str(s: string)
    | Arr(items: seq<Json>)
    | Obj(fields: map<string, Json>)
}
