/**
 * The JavaScript values that `JSON.parse` can produce, and JavaScript truthiness.
 * `JSON.parse` itself is left abstract: callers receive it as a partial function
 * `string -> Option<Json>` (None stands for the SyntaxError it throws).
 */
module Json {

  datatype Json =
    | Null
    | Bool(b: bool)
    | Number(n: real)
    | Str(s: string)
    | Arr(items: seq<Json>)
    | Obj(members: seq<(string, Json)>)

  /** JavaScript's ToBoolean on the values above: null, false, 0 and "" are falsy. */
  predicate Truthy(j: Json) {
    match j
    case Null => false
    case Bool(b) => b
    case Number(n) => n != 0.0
    case Str(s) => s != []
    case Arr(_) => true
    case Obj(_) => true
  }

  /** The object literal `{ name: name, id: id }` that the source dispatches as a user. */
  function UserObject(name: string, id: string): (u: Json)
    ensures Truthy(u)
  {
    Obj([("name", Str(name)), ("id", Str(id))])
  }
}
