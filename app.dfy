/** The top-level component: renders the todos page inside its view model for the `todos` routes. */
module App {
  import opened Wrappers
  import opened JsValues
  import opened Routes
  import opened Controller

  /** `s.split('.')[0]`: the text before the first `'.'`, or all of `s` when it has none. */
  function FirstSegment(s: string): (r: string)
    ensures |r| <= |s| && r == s[..|r|]
    ensures '.' !in r
    ensures r == s || s[|r|] == '.'
  {
    if s == [] || s[0] == '.' then []
    else [s[0]] + FirstSegment(s[1..])
  }

  /** The nested routes sit under `todos`. */
  lemma NestedRoutesAreUnderTodos()
    ensures FirstSegment(TODOS) == TODOS
    ensures FirstSegment(TODOS_ACTIVE) == TODOS
    ensures FirstSegment(TODOS_COMPLETED) == TODOS
  {
    assert '.' !in TODOS;
    assert TODOS_ACTIVE == TODOS + "." + "active";
    assert TODOS_COMPLETED == TODOS + "." + "completed";
    FirstSegmentOfDotted(TODOS, "active");
    FirstSegmentOfDotted(TODOS, "completed");
  }

  lemma {:induction false} FirstSegmentOfDotted(a: string, b: string)
    requires '.' !in a
    ensures FirstSegment(a + "." + b) == a
    ensures FirstSegment(a) == a
  {
    if a != [] {
      assert (a + "." + b)[1..] == a[1..] + "." + b;
      FirstSegmentOfDotted(a[1..], b);
    }
  }

  /** What App renders. */
  datatype View =
    | Nothing
    | TodosPage(initialState: Object, apolloClient: Value)  // <TodosViewModel ...><Todos /></TodosViewModel>

  /** `{ todos: [] }`. */
  const InitialState: Object := map["todos" := TodoList([])]

  /** App as written: it takes no props, so the view model gets no `apolloClient`. */
  function AppAsWritten(routeName: string): (v: View)
    ensures v.TodosPage? <==> FirstSegment(routeName) == TODOS
    ensures v.TodosPage? ==> v.initialState == InitialState && v.apolloClient == Undefined
  {
    if FirstSegment(routeName) == TODOS then TodosPage(InitialState, Undefined) else Nothing
  }

  /** On any todos route, the page App renders as written cannot construct its controller. */
  lemma AsWrittenControllerThrows(routeName: string)
    requires FirstSegment(routeName) == TODOS
    ensures ConstructionError(AppAsWritten(routeName).apolloClient).Some?
  {
  }

  /** App with its `apolloClient` prop forwarded to the view model, as the page's own usage example shows. */
  function AppView(routeName: string, props: Object): (v: View)
    ensures v.TodosPage? <==> FirstSegment(routeName) == TODOS
    ensures v.TodosPage? ==> v.initialState == InitialState && v.apolloClient == Get(props, "apolloClient")
  {
    if FirstSegment(routeName) == TODOS then TodosPage(InitialState, Get(props, "apolloClient")) else Nothing
  }

  /** Given the client the entry point passes, the forwarding App can construct its controller. */
  lemma AppViewConstructsController(routeName: string, client: nat)
    requires FirstSegment(routeName) == TODOS
    ensures ConstructionError(AppView(routeName, map["apolloClient" := Ref(client)]).apolloClient).None?
  {
  }
}
