/** JSON documents as the control plane sees them after parsing.  The order of
    an object's keys is not part of the value. */
module Json {
  import opened Common

  datatype Json =
    | Null
    | Bool(b: bool)
    | Num(n: real)
    | Str(s: string)
    | Arr(items: seq<Json>)
    | Obj(fields: map<string, Json>)

  /** The value reached by following object keys, if every step exists. */
  function Lookup(j: Json, path: seq<string>): Option<Json> {
    if path == [] then Some(j)
    else if j.Obj? && path[0] in j.fields then Lookup(j.fields[path[0]], path[1..])
    else None
  }

  /** Some proper prefix of the path ends at a value that is not an object,
      so nothing below it can be reached. */
  predicate Blocked(j: Json, path: seq<string>) {
    path != [] &&
    (!j.Obj? || (path[0] in j.fields && Blocked(j.fields[path[0]], path[1..])))
  }
}
