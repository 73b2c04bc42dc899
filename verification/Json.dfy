/** JSON values as the decoder leaves them: numbers keep their text. */
module Json {
  import opened Wrappers

  datatype Json =
    | Null
    | Bool(b: bool)
    | Num(text: string)
    | Str(s: string)
    | Arr(items: seq<Json>)
    | Obj(fields: map<string, Json>)
  {
    predicate Scalar() {
      !Arr? && !Obj?
    }
  }

  datatype Token = Name(name: string) | Index(i: nat)

  /** The value at a place inside another. */
  function Get(j: Json, path: seq<Token>): Option<Json>
    decreases |path|
  {
    if path == [] then Some(j)
    else match path[0]
      case Name(k) => if j.Obj? && k in j.fields then Get(j.fields[k], path[1..]) else None
      case Index(i) => if j.Arr? && i < |j.items| then Get(j.items[i], path[1..]) else None
  }
}
