/**
 * The view-model provider: owns the reducer's state cell and a memoised controller, and
 * exposes the pair `[state, controller]` to its descendants.
 */
module ViewModel {
  import opened Wrappers
  import opened JsValues
  import opened Reducer
  import opened Controller

  /** `filters`: the three ways the list can be filtered. */
  datatype TodoFilter = ActiveTodos | AllTodos | CompletedTodos

  /** The string each filter stands for. */
  function FilterValue(f: TodoFilter): string
  {
    match f
    case ActiveTodos => "active"
    case AllTodos => "all"
    case CompletedTodos => "completed"
  }

  /** The three filter values are pairwise distinct. */
  lemma FilterValuesDistinct(f: TodoFilter, g: TodoFilter)
    ensures FilterValue(f) == FilterValue(g) <==> f == g
  {
  }

  /** `TodoViewModel.defaultProps.initialState`. */
  const DefaultInitialState: Option<Object> := None

  class Provider {
    /** The `useReducer` state cell. */
    var state: Option<Object>
    /** Identity of the dispatch function `useReducer` hands out; stable for the provider's life. */
    const dispatch: nat
    /** The `useMemo` cell: the controller and the dependencies `[dispatch, apolloClient]` it was built for. */
    var controller: Controller
    var memoKey: (nat, nat)

    ghost predicate Valid()
      reads this, controller
    {
      memoKey == (controller.dispatch, controller.apolloClient) && controller.dispatch == dispatch
    }

    /** The first render: state starts as `initialState`, and a controller is built for the client. */
    constructor (initialState: Option<Object>, dispatch: nat, apolloClient: Value)
      requires ConstructionError(apolloClient).None?
      ensures Valid() && fresh(controller)
      ensures this.dispatch == dispatch
      ensures state == initialState
      ensures Ref(controller.apolloClient) == apolloClient
      ensures controller.dispatched == [] && controller.issued == []
    {
      state := initialState;
      this.dispatch := dispatch;
      var c := new Controller(dispatch, apolloClient);
      controller := c;
      memoKey := (dispatch, apolloClient.address);
    }

    /** The context value `[state, controller]`; `useTodoViewModel` returns it as it is. */
    function ContextValue(): (v: (Option<Object>, Controller))
      reads this
    {
      (state, controller)
    }

    /**
     * A re-render with the current `apolloClient`: the controller is rebuilt if and only if
     * `[dispatch, apolloClient]` differs from the dependencies it was built for.
     */
    method Render(apolloClient: nat)
      requires Valid()
      modifies this
      ensures Valid() && state == old(state)
      ensures (dispatch, apolloClient) == old(memoKey) ==> controller == old(controller)
      ensures (dispatch, apolloClient) != old(memoKey) ==>
                fresh(controller) && controller.apolloClient == apolloClient
                && controller.dispatched == [] && controller.issued == []
    {
      if (dispatch, apolloClient) != memoKey {
        var c := new Controller(dispatch, Ref(apolloClient));
        controller := c;
        memoKey := (dispatch, apolloClient);
      }
    }

    /** `dispatch(action)`: the state advances by `reducer`; an unknown type leaves it unchanged and fails. */
    method Dispatch(action: Object) returns (r: Result<Object>)
      modifies this
      ensures r == Reduce(old(state), action)
      ensures state == (if r.Success? then Some(r.value) else old(state))
      ensures controller == old(controller) && memoKey == old(memoKey)
    {
      r := Reduce(state, action);
      if r.Success? {
        state := Some(r.value);
      }
    }

    /**
     * The watched query emits: the controller decides, and what it dispatches reaches the
     * reducer. The list in state becomes `data.todos`; every other field is kept.
     */
    method Deliver(w: WatchResult)
      requires Valid()
      modifies this, controller
      ensures Valid() && controller == old(controller)
      ensures state == (if WatchAction(w).Some?
                        then Some(Fields(old(state))["todos" := Get(w.data.value, "todos")])
                        else old(state))
      ensures controller.dispatched == old(controller.dispatched) + (if WatchAction(w).Some? then [WatchAction(w).value] else [])
      ensures controller.issued == old(controller.issued)
    {
      var action := controller.OnWatchResult(w);
      if action.Some? {
        WatchActionIsHandled(w, state);
        var r := Dispatch(action.value);
      }
    }
  }
}
