/**
 * The JavaScript values that flow through the view model: action and state objects,
 * component props and query results. An object is a map from its own keys to values;
 * `Ref` stands for an object or function compared by identity, as `===` does. Where a
 * `Ref` is handed to the controller as its client, it stands for an Apollo client.
 * `TodoList` compares by content, unlike a JavaScript array; no comparison in the
 * model is made between two lists.
 */
module JsValues {
  import opened TodoData

  datatype Value =
    | Undefined
    | Null
    | Bool(b: bool)
    | Num(n: int)
    | Str(s: string)
    | TodoList(todos: seq<Todo>)
    | Ref(address: nat)

  type Object = map<string, Value>

  /** Property read `o[key]`: a missing key reads as `undefined`. */
  function Get(o: Object, key: string): Value
  {
    if key in o then o[key] else Undefined
  }
}
