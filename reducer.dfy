/**
 * The view model's state-transition function. State is a JavaScript object (or `null`
 * before anything was set); an action is an object whose `type` names the handler.
 */
module Reducer {
  import opened Wrappers
  import opened TodoData
  import opened JsValues

  /** The fields of a state: object spread of `null` contributes nothing. */
  function Fields(state: Option<Object>): Object
  {
    match state
    case None => map[]
    case Some(o) => o
  }

  /** `Reducer.todosUpdated(state, { todos })`: `{ ...state, todos }`. */
  function TodosUpdated(state: Option<Object>, args: Object): (r: Object)
    ensures "todos" in r && r["todos"] == Get(args, "todos")
    ensures forall k :: k != "todos" ==> (k in r <==> k in Fields(state))
    ensures forall k :: k != "todos" && k in r ==> r[k] == Fields(state)[k]
  {
    Fields(state)["todos" := Get(args, "todos")]
  }

  /** The handlers of the `Reducer` class, by name. */
  datatype Handler = TodosUpdatedHandler

  /** `Reducer[type]`: only `todosUpdated` is defined. */
  function HandlerFor(kind: Value): (h: Option<Handler>)
    ensures h.Some? <==> kind == Str("todosUpdated")
  {
    if kind == Str("todosUpdated") then Some(TodosUpdatedHandler) else None
  }

  /**
   * `reducer(state, { type, ...args })`: strips `type` and hands the other fields to the
   * handler named by `type`; an unknown type makes `Reducer[type].call` throw.
   */
  function Reduce(state: Option<Object>, action: Object): (r: Result<Object>)
    ensures r.Success? <==> Get(action, "type") == Str("todosUpdated")
    ensures r.Success? ==> r.value == TodosUpdated(state, action - {"type"})
  {
    match HandlerFor(Get(action, "type"))
    case None => Failure("TypeError: Reducer[type] is undefined")
    case Some(TodosUpdatedHandler) => Success(TodosUpdated(state, action - {"type"}))
  }

  /** The action the controller dispatches when the todo list changes. */
  function TodosUpdatedAction(todos: Value): Object
  {
    map["type" := Str("todosUpdated"), "todos" := todos]
  }

  /** A `todosUpdated` action sets `todos` to its payload and keeps every other field of the state. */
  lemma TodosUpdatedActionReplacesList(state: Option<Object>, todos: Value)
    ensures Reduce(state, TodosUpdatedAction(todos)) == Success(Fields(state)["todos" := todos])
  {
    var args := TodosUpdatedAction(todos) - {"type"};
    assert Get(args, "todos") == todos;
  }

  /** Replacing the list with the same payload twice is replacing it once. */
  lemma TodosUpdatedIdempotent(state: Option<Object>, args: Object)
    ensures TodosUpdated(Some(TodosUpdated(state, args)), args) == TodosUpdated(state, args)
  {
  }

  /** The last replacement wins: replacing with `a` then `b` is replacing with `b` alone. */
  lemma TodosUpdatedLastWins(state: Option<Object>, a: Object, b: Object)
    ensures TodosUpdated(Some(TodosUpdated(state, a)), b) == TodosUpdated(state, b)
  {
  }
}
