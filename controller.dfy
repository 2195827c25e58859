/**
 * The view controller: forwards the watched `Todos` query to the reducer and turns each
 * user operation into one mutation request against the persistence service.
 */
module Controller {
  import opened Wrappers
  import opened Seqs
  import opened TodoData
  import opened JsValues
  import opened Reducer

  // ---- the watch subscription ----

  /** One emission of the watched query: `{ data, loading, networkStatus }`; `data` may be undefined. */
  datatype WatchResult = WatchResult(data: Option<Object>, loading: bool, networkStatus: int)

  /** Apollo's network status for a refetch in flight. */
  const RefetchStatus: int := 4

  /**
   * The subscription callback's decision: nothing while loading or refetching, nothing
   * without data, otherwise one `todosUpdated` action carrying `data.todos`.
   */
  function WatchAction(r: WatchResult): (a: Option<Object>)
    ensures r.loading || r.networkStatus == RefetchStatus ==> a == None
    ensures r.data.None? ==> a == None
    ensures !r.loading && r.networkStatus != RefetchStatus && r.data.Some? ==>
              a == Some(TodosUpdatedAction(Get(r.data.value, "todos")))
  {
    if r.loading || r.networkStatus == RefetchStatus then None
    else if r.data.Some? then Some(TodosUpdatedAction(Get(r.data.value, "todos")))
    else None
  }

  /** Every action the subscription dispatches has a handler, and sets the state's list to `data.todos`. */
  lemma WatchActionIsHandled(r: WatchResult, state: Option<Object>)
    requires WatchAction(r).Some?
    ensures Reduce(state, WatchAction(r).value).Success?
    ensures Reduce(state, WatchAction(r).value).value == Fields(state)["todos" := Get(r.data.value, "todos")]
  {
    TodosUpdatedActionReplacesList(state, Get(r.data.value, "todos"));
  }

  // ---- the requests each operation issues ----

  /** The GraphQL mutations the controller sends. */
  datatype Mutation =
    | ToggleAllTodosMutation
    | ToggleTodoMutation
    | CreateTodoMutation
    | DestroyTodoMutation
    | UpdateTodoMutation
    | ClearCompletedTodosMutation

  /** One `mutate` call: the mutation, its variables, the queries to refetch, and whether it rewrites the cache. */
  datatype Request = Request(mutation: Mutation, variables: Object, refetchQueries: seq<string>, rewritesCache: bool)

  /** The controller's operations, with their arguments. */
  datatype Call =
    | ToggleAllTodos(checked: bool)
    | ToggleTodo(todo: Todo)
    | AddTodo(title: string)
    | DestroyTodo(todo: Todo)
    | SaveTodo(todo: Todo, text: string)
    | ClearCompleted

  /** The request each controller method hands to `apolloClient.mutate`. */
  function RequestFor(c: Call): Request
  {
    match c
    case ToggleAllTodos(checked) =>
      Request(ToggleAllTodosMutation, map["checked" := Bool(checked)], ["Todos"], false)
    case ToggleTodo(todo) =>
      Request(ToggleTodoMutation, map["id" := Str(todo.id)], [], false)
    case AddTodo(title) =>
      Request(CreateTodoMutation, map["title" := Str(title)], ["Todos"], false)
    case DestroyTodo(todo) =>
      Request(DestroyTodoMutation, map["id" := Str(todo.id)], [], true)
    case SaveTodo(todo, text) =>
      Request(UpdateTodoMutation, map["id" := Str(todo.id), "title" := Str(text)], [], false)
    case ClearCompleted =>
      Request(ClearCompletedTodosMutation, map[], ["Todos"], false)
  }

  /** Adding, toggling all and clearing refetch `Todos`; the single-todo operations do not. */
  lemma RefetchesExactlyListOperations(c: Call)
    ensures "Todos" in RequestFor(c).refetchQueries <==> (c.AddTodo? || c.ToggleAllTodos? || c.ClearCompleted?)
    ensures RequestFor(c).refetchQueries == [] || RequestFor(c).refetchQueries == ["Todos"]
  {
  }

  /**
   * Toggle and destroy send only the todo's id; save sends the id and the text as given,
   * untrimmed; only destroy rewrites the cache.
   */
  lemma RequestVariables(c: Call)
    ensures (c.ToggleTodo? || c.DestroyTodo?) ==> RequestFor(c).variables == map["id" := Str(c.todo.id)]
    ensures c.SaveTodo? ==> RequestFor(c).variables.Keys == {"id", "title"}
                            && RequestFor(c).variables["id"] == Str(c.todo.id)
                            && RequestFor(c).variables["title"] == Str(c.text)
    ensures RequestFor(c).rewritesCache <==> c.DestroyTodo?
  {
  }

  /** `new Controller(dispatch, apolloClient)` throws unless `apolloClient` is an object it can watch. */
  function ConstructionError(apolloClient: Value): (e: Option<string>)
    ensures e.None? <==> apolloClient.Ref?
  {
    if apolloClient.Ref? then None
    else if apolloClient.Undefined? then Some("TypeError: Cannot read properties of undefined (reading 'watchQuery')")
    else if apolloClient.Null? then Some("TypeError: Cannot read properties of null (reading 'watchQuery')")
    else Some("TypeError: this._apolloClient.watchQuery is not a function")
  }

  class Controller {
    /** Identity of `_dispatch`, the reducer's dispatch function. */
    const dispatch: nat
    /** Identity of `_apolloClient`. */
    const apolloClient: nat
    /** The actions passed to `_dispatch`, oldest first. */
    var dispatched: seq<Object>
    /** The requests passed to `_apolloClient.mutate`, oldest first. */
    var issued: seq<Request>

    /** Stores both dependencies and subscribes to the `Todos` query; nothing is sent yet. */
    constructor (dispatch: nat, apolloClient: Value)
      requires ConstructionError(apolloClient).None?
      ensures this.dispatch == dispatch && Ref(this.apolloClient) == apolloClient
      ensures dispatched == [] && issued == []
    {
      this.dispatch := dispatch;
      this.apolloClient := apolloClient.address;
      dispatched, issued := [], [];
    }

    /** The subscription callback: dispatches what `WatchAction` decides and issues nothing. */
    method OnWatchResult(r: WatchResult) returns (action: Option<Object>)
      modifies this
      ensures action == WatchAction(r)
      ensures dispatched == old(dispatched) + (if action.Some? then [action.value] else [])
      ensures issued == old(issued)
    {
      action := WatchAction(r);
      if action.Some? {
        dispatched := dispatched + [action.value];
      }
    }

    /** Issues the request for `c`; no operation dispatches to the reducer, on success or failure. */
    method Issue(c: Call)
      modifies this
      ensures issued == old(issued) + [RequestFor(c)]
      ensures dispatched == old(dispatched)
    {
      issued := issued + [RequestFor(c)];
    }

    /** `toggleAllTodos(checked)`. */
    method ToggleAllTodos(checked: bool)
      modifies this
      ensures issued == old(issued) + [RequestFor(Call.ToggleAllTodos(checked))]
      ensures dispatched == old(dispatched)
    {
      Issue(Call.ToggleAllTodos(checked));
    }

    /** `toggleTodo(todo)`. */
    method ToggleTodo(todo: Todo)
      modifies this
      ensures issued == old(issued) + [RequestFor(Call.ToggleTodo(todo))]
      ensures dispatched == old(dispatched)
    {
      Issue(Call.ToggleTodo(todo));
    }

    /** `addTodo(title)`. */
    method AddTodo(title: string)
      modifies this
      ensures issued == old(issued) + [RequestFor(Call.AddTodo(title))]
      ensures dispatched == old(dispatched)
    {
      Issue(Call.AddTodo(title));
    }

    /** `destroyTodo(todo)`; its cache rewrite is `Cache.DestroyUpdate`. */
    method DestroyTodo(todo: Todo)
      modifies this
      ensures issued == old(issued) + [RequestFor(Call.DestroyTodo(todo))]
      ensures dispatched == old(dispatched)
    {
      Issue(Call.DestroyTodo(todo));
    }

    /** `saveTodo(todo, text)`. */
    method SaveTodo(todo: Todo, text: string)
      modifies this
      ensures issued == old(issued) + [RequestFor(Call.SaveTodo(todo, text))]
      ensures dispatched == old(dispatched)
    {
      Issue(Call.SaveTodo(todo, text));
    }

    /** `clearCompleted()`. */
    method ClearCompleted()
      modifies this
      ensures issued == old(issued) + [RequestFor(Call.ClearCompleted)]
      ensures dispatched == old(dispatched)
    {
      Issue(Call.ClearCompleted);
    }
  }

  // ---- the destroy mutation's cache rewrite ----

  /** The key of a todo's record in the normalised cache: `Todo:${id}`. */
  function RecordKey(id: string): string
  {
    "Todo:" + id
  }

  /** Distinct ids have distinct record keys, so the rewrite deletes one todo's record only. */
  lemma RecordKeyInjective(a: string, b: string)
    ensures RecordKey(a) == RecordKey(b) ==> a == b
  {
    if RecordKey(a) == RecordKey(b) {
      assert a == RecordKey(a)[5..] && b == RecordKey(b)[5..];
    }
  }

  /**
   * The rewritten `Todos` result: no node keeps the destroyed id, every other node stays,
   * and survivors keep their relative order.
   */
  lemma DestroyRewriteDropsOnlyThatId(a: seq<Todo>, b: seq<Todo>, id: string)
    ensures forall t :: t in Filter(a, HasNotId(id)) ==> t in a && t.id != id
    ensures forall t :: t in a && t.id != id ==> t in Filter(a, HasNotId(id))
    ensures Filter(a + b, HasNotId(id)) == Filter(a, HasNotId(id)) + Filter(b, HasNotId(id))
  {
    FilterMembers(a, HasNotId(id));
    FilterConcat(a, b, HasNotId(id));
  }

  /** The part of the Apollo cache the destroy update touches. */
  class Cache {
    /** The cached result of the `Todos` query. */
    var todosQuery: seq<Todo>
    /** The normalised records, keyed by `RecordKey`. */
    var records: map<string, Todo>

    constructor (todosQuery: seq<Todo>, records: map<string, Todo>)
      ensures this.todosQuery == todosQuery && this.records == records
    {
      this.todosQuery, this.records := todosQuery, records;
    }

    /**
     * The `update` of `destroyTodo`, given the mutation's returned todo: filters that id out
     * of the query result and deletes its record. Reading `.id` of a null result throws.
     */
    method DestroyUpdate(destroyed: Option<Todo>) returns (ok: bool)
      modifies this
      ensures ok <==> destroyed.Some?
      ensures ok ==> todosQuery == Filter(old(todosQuery), HasNotId(destroyed.value.id))
                     && records == old(records) - {RecordKey(destroyed.value.id)}
      ensures !ok ==> todosQuery == old(todosQuery) && records == old(records)
    {
      if destroyed.None? {
        return false;
      }
      var id := destroyed.value.id;
      todosQuery := Filter(todosQuery, HasNotId(id));
      records := records - {RecordKey(id)};
      ok := true;
    }
  }
}
