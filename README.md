# MVReact TodoMVC: a Dafny model

This project models the core of a React TodoMVC application built in the
model–view–view-model style:

- **Persistence service** (`Api.Store`). A mock service keeps one list of todos under
  the `'todos'` key of `localStorage`. Each mutator reads the list, builds a new one and
  overwrites the key.
- **View controller** (`Controller.Controller`). It forwards each emission of the
  watched `Todos` query that is settled (neither loading nor refetching) and carries data
  to the reducer, as a `todosUpdated` action. It turns each user
  operation into one GraphQL mutation request. The destroy mutation also rewrites the
  cache (`Controller.Cache`).
- **Reducer** (`Reducer.Reduce`). It looks up the handler named by the action's `type`.
  The only handler keeps the state's fields and replaces its `todos` with the payload's.
- **View-model provider** (`ViewModel.Provider`). It owns the reducer's state cell. It
  also holds a controller memoised on `[dispatch, apolloClient]`.
- **Views**, as pure functions of their props, plus small classes for their state cells:
  - the top-level `App` route switch;
  - the route table;
  - the todos page (counts, toggle-all direction, new-todo input);
  - the list (`Main`: visible subset, editing flag, toggle-all box);
  - one item's edit state machine and its memo comparator;
  - the footer (links, clear-completed button, memo comparators).

JavaScript values and objects are modelled in `JsValues`:

- `Value` is `undefined`, `null`, booleans, integers, strings, todo lists, or `Ref(n)`.
  `Ref(n)` stands for an object whose identity is `n`. A `Ref` handed to the controller as
  its client stands for an Apollo client.
- An object is a `map<string, Value>`. Reading a missing key yields `Undefined`.
- `===` is equality of `Value`s. This matches JavaScript for every kind except `TodoList`,
  which compares by content where JavaScript compares arrays by identity. No modelled
  comparison is made between two lists.

The supporting modules are:

- `Seqs`: a generic `Filter` and its laws.
- `Text`: `trim` over a fixed whitespace set.
- `TodoData`: the todo record, id sets and id uniqueness.
- `Wrappers`: `Option` and `Result`.

Sources cited below are paths under the repository root. Every cell names the lines that
member models.

## Model

| member | source | states |
|---|---|---|
| Api.Store.constructor | src/services/todo/api.js:13-15 | nothing is stored at first, so the list is empty and its ids are trivially distinct |
| Api.Store.Todos | src/services/todo/api.js:13-15 | the getter yields the stored list, or `[]` when nothing is stored |
| Api.Store.CreateTodo | src/services/todo/api.js:17-27 | given a fresh id: returns the new uncompleted todo, appends it to the stored list and adds exactly its id; keeps ids distinct |
| Api.Store.DestroyTodo | src/services/todo/api.js:29-35 | returns the first todo with that id (None iff absent); stores the list with every todo of that id removed; the ids lose exactly that id; keeps ids distinct |
| Api.Store.ClearCompletedTodos | src/services/todo/api.js:37-42 | returns and stores the active todos, in order; no id is added; keeps ids distinct |
| Api.Store.ToggleAllTodos | src/services/todo/api.js:44-51 | returns and stores the list with every `completed` set to `checked`, ids and titles unchanged |
| Api.Store.ToggleTodo | src/services/todo/api.js:53-64 | the loop stores the list with that id's todos toggled; it returns the toggled copy of the last match, or None when the id is absent; the id set is unchanged |
| Api.Store.UpdateTodo | src/services/todo/api.js:66-77 | the loop stores the list with that id's todos retitled; it returns the retitled copy of the last match, or None; the id set is unchanged |
| Api.ToggledById | src/services/todo/api.js:55-60 | same length; todos with other ids are unchanged; todos with that id keep id and title and flip `completed` |
| Api.RetitledById | src/services/todo/api.js:68-73 | same length; todos with other ids are unchanged; todos with that id take the new title and keep id and `completed` |
| Api.AllCompletedSetTo | src/services/todo/api.js:45-47 | same length; each position keeps id and title and has `completed == checked` |
| Api.FirstWithId | src/services/todo/api.js:30 | `find`: None exactly when no todo has the id; otherwise the todo at the first position carrying that id |
| Api.LastWithId | src/services/todo/api.js:54-63 | the todo the captured `updated` ends up copying: None exactly when the id is absent; otherwise the todo at the last position carrying that id |
| Api.DestroyedIds | src/services/todo/api.js:31 | filtering out an id removes exactly that id from the id set |
| Api.ToggleTwiceRestores | src/services/todo/api.js:53-64 | toggling the same id twice gives back the original list |
| Api.DestroyMissingIsNoOp | src/services/todo/api.js:29-35 | destroying an absent id returns nothing and leaves the list as it was |
| Api.MapMissingIsNoOp | src/services/todo/api.js:53-77 | toggling or retitling an absent id returns nothing and leaves the list as it was |
| Api.DestroyPresentRemovesOne | src/services/todo/api.js:29-35 | with distinct ids, destroying a present id shortens the list by exactly one |
| Api.FirstIsLastWhenUnique | src/services/todo/api.js:30 | with distinct ids, the first and the last todo with an id coincide |
| Api.ClearCompletedKeepsActive | src/services/todo/api.js:38 | the cleared list has no completed todo and keeps every active one; the filter distributes over concatenation, so order is kept |
| Reducer.TodosUpdated | src/view_models/TodoViewModel/Reducer.js:16-18 | `todos` becomes the payload's `todos`; every other key of the state is kept with its value, and none is added |
| Reducer.HandlerFor | src/view_models/TodoViewModel/Reducer.js:7-19 | a handler exists exactly for the type `"todosUpdated"` |
| Reducer.Reduce | src/view_models/TodoViewModel/Reducer.js:36-38 | succeeds exactly when `type` is `"todosUpdated"`; the new state is `todosUpdated` applied to the action without `type`; any other type fails |
| Reducer.TodosUpdatedActionReplacesList | src/view_models/TodoViewModel/Reducer.js:36-38 | a `todosUpdated` action sets the state's `todos` to its payload and keeps every other field |
| Reducer.TodosUpdatedIdempotent | src/view_models/TodoViewModel/Reducer.js:16-18 | applying the same update twice is applying it once |
| Reducer.TodosUpdatedLastWins | src/view_models/TodoViewModel/Reducer.js:16-18 | of two updates in a row, the second alone decides the result |
| Controller.WatchAction | src/view_models/TodoViewModel/Controller.js:45-57 | nothing while loading or while network status is 4 (refetch); nothing without data; otherwise one `todosUpdated` action carrying `data.todos` |
| Controller.WatchActionIsHandled | src/view_models/TodoViewModel/Controller.js:55 | every action the subscription emits has a reducer handler and replaces the state's list with `data.todos` |
| Controller.RefetchesExactlyListOperations | src/view_models/TodoViewModel/Controller.js:69-174 | add, toggle-all and clear refetch `Todos`; toggle, destroy and save refetch nothing |
| Controller.RequestVariables | src/view_models/TodoViewModel/Controller.js:87-153 | toggle and destroy send only the todo's id; save sends the id and the untrimmed text; only destroy rewrites the cache |
| Controller.ConstructionError | src/view_models/TodoViewModel/Controller.js:37-45 | construction throws exactly when `apolloClient` is not a client object (`undefined` included) |
| Controller.Controller.constructor | src/view_models/TodoViewModel/Controller.js:37-58 | given a client object, stores both dependencies; nothing is dispatched or sent yet |
| Controller.Controller.OnWatchResult | src/view_models/TodoViewModel/Controller.js:45-57 | dispatches exactly what `WatchAction` decides and sends no request |
| Controller.Controller.Issue | src/view_models/TodoViewModel/Controller.js:69-174 | appends the operation's request to the sent log; dispatches nothing |
| Controller.Controller.ToggleAllTodos | src/view_models/TodoViewModel/Controller.js:69-78 | sends one toggle-all request with `checked` that refetches `Todos`; dispatches nothing |
| Controller.Controller.ToggleTodo | src/view_models/TodoViewModel/Controller.js:85-94 | sends one toggle request with the todo's id; dispatches nothing |
| Controller.Controller.AddTodo | src/view_models/TodoViewModel/Controller.js:101-110 | sends one create request with the title that refetches `Todos`; dispatches nothing |
| Controller.Controller.DestroyTodo | src/view_models/TodoViewModel/Controller.js:117-143 | sends one destroy request with the todo's id that rewrites the cache; dispatches nothing |
| Controller.Controller.SaveTodo | src/view_models/TodoViewModel/Controller.js:151-160 | sends one update request with the id and the text; dispatches nothing |
| Controller.Controller.ClearCompleted | src/view_models/TodoViewModel/Controller.js:165-174 | sends one clear request that refetches `Todos`; dispatches nothing |
| Controller.RecordKeyInjective | src/view_models/TodoViewModel/Controller.js:134 | distinct ids have distinct `Todo:${id}` keys, so only the destroyed todo's record is deleted |
| Controller.DestroyRewriteDropsOnlyThatId | src/view_models/TodoViewModel/Controller.js:126 | the rewritten result drops exactly the nodes with that id and keeps the others in order |
| Controller.Cache.DestroyUpdate | src/view_models/TodoViewModel/Controller.js:122-135 | with a returned todo, filters its id out of the cached `Todos` result and deletes its record; with a null result it throws and the cache is unchanged |
| ViewModel.FilterValuesDistinct | src/view_models/TodoViewModel/index.js:12-16 | the three filter values are pairwise distinct |
| ViewModel.Provider.constructor | src/view_models/TodoViewModel/index.js:30-35 | the state starts as `initialState`; a fresh controller is built for the given client and the provider's `dispatch` |
| ViewModel.Provider.Render | src/view_models/TodoViewModel/index.js:33-35 | the controller is rebuilt exactly when `[dispatch, apolloClient]` changed; the state is kept |
| ViewModel.Provider.Dispatch | src/view_models/TodoViewModel/index.js:31 | the state advances to `reducer(state, action)`; an unknown type fails and leaves it unchanged |
| ViewModel.Provider.Deliver | src/view_models/TodoViewModel/index.js:31-37 | a watch emission that yields an action sets the state's `todos` to `data.todos` and keeps every other field; the controller's dispatch log gains exactly that action; no request is sent |
| Routes.PathOf | src/routes/index.js:10-14 | a found path belongs to an entry of the table with that name; None means no entry has the name |
| Routes.RouteTableIsInjective | src/routes/index.js:1-14 | three routes, with pairwise distinct names and pairwise distinct paths |
| Routes.RoutePaths | src/routes/index.js:10-14 | `todos` maps to `/`, `todos.active` to `/active`, `todos.completed` to `/completed` |
| App.FirstSegment | src/App.jsx:14 | `split('.')[0]`: the longest prefix free of `'.'`, which ends at the first `'.'` or at the end |
| App.NestedRoutesAreUnderTodos | src/App.jsx:14-17 | every route name of the table has `todos` as its top-level segment |
| App.AppAsWritten | src/App.jsx:11-25 | the page is rendered exactly on the `todos` routes, with `{ todos: [] }` as initial state and no client |
| App.AsWrittenControllerThrows | src/App.jsx:19 | on any todos route, the page App renders as written cannot construct its controller |
| App.AppView | src/App.jsx:11-25 | the page is rendered exactly on the `todos` routes, with `{ todos: [] }` and the forwarded `apolloClient` |
| App.AppViewConstructsController | src/App.jsx:19 | given a client object, the forwarding App's controller can be constructed |
| TodosPage.FilterForRoute | src/components/pages/Todos/index.jsx:29-38 | active exactly on `todos.active`, completed exactly on `todos.completed`, all on every other route |
| TodosPage.CountActiveFrom | src/components/pages/Todos/index.jsx:74 | the `reduce` yields the start value plus the number of todos that are not completed |
| TodosPage.ActiveTodoCount | src/components/pages/Todos/index.jsx:74 | the number of active todos |
| TodosPage.CompletedCount | src/components/pages/Todos/index.jsx:75 | the number of completed todos; active plus completed is the list's length |
| TodosPage.ToggleDirFlipsUniformLists | src/components/pages/Todos/index.jsx:77 | toggle-all completes unless completed outnumber active, so an all-completed list is cleared and an all-active list completed |
| TodosPage.NewTodoKeyDown | src/components/pages/Todos/index.jsx:17-27 | only Enter acts; blank text adds nothing and keeps the input; otherwise the trimmed text is added and the input cleared |
| TodosPage.AddedTitleIsTrimmed | src/components/pages/Todos/index.jsx:21-24 | an added title is non-empty, already trimmed and starts with a non-space |
| TodosPage.NewTodoInput.Change | src/components/pages/Todos/index.jsx:13-15 | the input text becomes the event's value |
| TodosPage.NewTodoInput.KeyDown | src/components/pages/Todos/index.jsx:17-27 | sends at most one create request, with exactly the title `NewTodoKeyDown` adds, and updates the input |
| TodosPage.ToggleAll | src/components/pages/Todos/index.jsx:98 | sends one toggle-all request with the computed direction |
| TodosMain.ShownTodosByFilter | src/components/pages/Todos/_Main.jsx:9-20 | `active` shows exactly the active todos, `completed` exactly the completed ones, in order; any other value shows the whole list |
| TodosMain.ActiveAndCompletedViewsPartition | src/components/pages/Todos/_Main.jsx:9-20 | the active and the completed views together account for every todo exactly once |
| TodosMain.Items | src/components/pages/Todos/_Main.jsx:45-61 | one item per visible todo, in order; an item is flagged editing exactly when its id is the edited one |
| TodosMain.Main | src/components/pages/Todos/_Main.jsx:36-76 | nothing exactly for an empty list; otherwise the box is checked iff no todo is active, with the visible items |
| TodosMain.AtMostOneItemEditing | src/components/pages/Todos/_Main.jsx:37-50 | with distinct ids, at most one rendered item is flagged editing |
| TodosMain.ToggleAllCheckedIffAllCompleted | src/components/pages/Todos/_Main.jsx:70 | with the page's count, the toggle-all box is checked exactly when every todo is completed |
| TodosMain.EditingCell.OnEdit | src/components/pages/Todos/_Main.jsx:53 | the todo becomes the one being edited |
| TodosMain.EditingCell.OnSave | src/components/pages/Todos/_Main.jsx:54-57 | sends one save request with the todo and the title, then stops editing |
| TodosMain.EditingCell.OnCancel | src/components/pages/Todos/_Main.jsx:58 | stops editing |
| TodosItem.SubmitStep | src/components/pages/Todos/_Item.jsx:12-20 | non-blank text: saves the trimmed text and shows it; blank text: destroys the todo and keeps the text |
| TodosItem.KeyDownStep | src/components/pages/Todos/_Item.jsx:27-34 | Escape restores the title and cancels; Enter submits; any other key does nothing |
| TodosItem.SubmitSavesTrimmedOrDestroys | src/components/pages/Todos/_Item.jsx:12-20 | a submit invokes exactly one of save and destroy; a saved title is non-empty, trimmed and what the input shows |
| TodosItem.EditAndEscapeRestoreTitle | src/components/pages/Todos/_Item.jsx:22-34 | edit and Escape both leave the input showing the todo's title and never save or destroy |
| TodosItem.ItemState.constructor | src/components/pages/Todos/_Item.jsx:58 | the edit text starts as the todo's title |
| TodosItem.ItemState.HandleSubmit | src/components/pages/Todos/_Item.jsx:12-20 | the cell and the callback log advance as `SubmitStep` says |
| TodosItem.ItemState.HandleEdit | src/components/pages/Todos/_Item.jsx:22-25 | calls `onEdit` and resets the text to the title |
| TodosItem.ItemState.HandleKeyDown | src/components/pages/Todos/_Item.jsx:27-34 | the cell and the callback log advance as `KeyDownStep` says |
| TodosItem.ItemState.HandleChange | src/components/pages/Todos/_Item.jsx:36-40 | the text follows the input only while editing; no callback |
| TodosItem.RerenderOnlyOnTodoOrEditing | src/components/pages/Todos/_Item.jsx:130-134 | an item re-renders exactly when `todo` or `editing` changes; other props are ignored |
| TodosFooter.ClearButtonShown | src/components/pages/Todos/_Footer.jsx:15-23 | hidden exactly for a defined count `<= 0`; an undefined count compares false, so the button shows |
| TodosFooter.FooterAsWritten | src/components/pages/Todos/_Footer.jsx:49-83 | hidden exactly when both counts are 0; when shown, the clear button always shows |
| TodosFooter.FooterAsWrittenShowsClearWithNothingCompleted | src/components/pages/Todos/_Footer.jsx:80 | one active todo and none completed still show "Clear completed" |
| TodosFooter.Footer | src/components/pages/Todos/_Footer.jsx:49-83 | hidden exactly when both counts are 0; otherwise carries the count and the links, and shows the clear button iff `completedCount > 0` |
| TodosFooter.FooterForList | src/components/pages/Todos/_Footer.jsx:50 | with the page's counts, the footer hides only for an empty list and offers clearing exactly when some todo is completed |
| TodosFooter.AtMostOneLinkSelected | src/components/pages/Todos/_Footer.jsx:59-79 | at most one link is selected, and exactly one when `nowShowing` is a filter value |
| TodosFooter.SelectedLinkTargetsCurrentFilter | src/components/pages/Todos/_Footer.jsx:59-79 | on every route, a link is selected exactly when its target route selects the page's current filter |
| TodosFooter.AllKeysEqualFrom | src/components/pages/Todos/_Footer.jsx:99-101 | the `reduce` is true exactly when the start value is true and every listed key is `===` in both prop sets |
| TodosFooter.MemoLinkSkipsIff | src/components/pages/Todos/_Footer.jsx:36-38 | a link skips re-rendering exactly when `className`, `routeName` and `children` are unchanged |
| TodosFooter.FooterSkipsIff | src/components/pages/Todos/_Footer.jsx:85-101 | the footer skips exactly when `completedCount`, `count` and `nowShowing` are unchanged; a new `onClearCompleted` alone does not re-render it |
| Text.TrimIsBorderedSlice | src/components/pages/Todos/_Item.jsx:13 | `trim` returns a slice of its input bordered only by whitespace, and neither end of it is whitespace |
| Text.TrimEmptyIffBlank | src/components/pages/Todos/index.jsx:21-23 | the trimmed text is empty exactly when the input is all whitespace |
| Text.TrimIdempotent | src/components/pages/Todos/_Item.jsx:13-16 | trimming twice is trimming once |

## Left out

- The Apollo client, cache and schema setup, the GraphQL type definitions and the resolvers (src/services/todo/api.js:80-126). These are configuration and library code. The resolvers forward to the `Store` methods that are modelled.
- JSON serialisation of `localStorage` is not modelled. The model stores the list as a value.
- `uuid()` is not modelled. The fresh id is a parameter, and a precondition says it is not already in use.
- Promise chains, `.then`/`.catch` logging and `console` output are not modelled. The order in which asynchronous mutations complete is not modelled.
- How Apollo decides when the watched query emits is not modelled. Emissions are inputs to `Controller.Controller.OnWatchResult` and `ViewModel.Provider.Deliver`.
- The machinery of `readQuery`/`writeQuery` is not modelled. `Controller.Cache` holds only the cached `Todos` result and the record map.
- React is not modelled:
  - rendering and scheduling;
  - JSX markup and `classNames`;
  - `pluralize`;
  - `usePrevious`;
  - the focus effect of an item (src/components/pages/Todos/_Item.jsx:60-67);
  - `event.preventDefault`;
  - the `useEffect` that copies the route's filter into `nowShowing`. `FilterForRoute` models what it copies.
- The items' `onToggle` and `onDestroy` callbacks are not modelled separately. They call `toggleTodo` and `destroyTodo` directly, which the controller methods model.
- Text.IsSpace: covers tab, line feed, vertical tab, form feed, carriage return, space, NBSP (U+00A0) and BOM (U+FEFF) only. It leaves out the other Unicode space separators (U+1680, U+2000-U+200A, U+202F, U+205F, U+3000) and the line terminators U+2028 and U+2029, which JavaScript's `trim` also removes.
- Controller.ConstructionError: every `Ref` counts as an Apollo client. An object without a `watchQuery` method, which also makes the constructor throw, is not told apart from a client.
- Reducer.HandlerFor: treats inherited `Object` properties used as a type (such as `'hasOwnProperty'`) as unhandled, so the model fails where JavaScript would call them.
- ViewModel.Provider.Dispatch: the model leaves the state unchanged and returns a failure where React would propagate the thrown error.
- ViewModel.Provider.Render: the old controller's query subscription is not cancelled when the controller is rebuilt (the source never unsubscribes it either), and its later emissions are not modelled.
- `TodoViewModel.defaultProps` (src/view_models/TodoViewModel/index.js:46-49) appears only as `ViewModel.DefaultInitialState`. The `defaultProps` of `Footer` are not modelled, because the page always passes all three props.
- `useTodoViewModel` (src/view_models/TodoViewModel/index.js:60-62) is the context read `ViewModel.Provider.ContextValue`, which has no contract of its own.
- The entry point, the router construction and the build configuration are not modelled. They are wiring to libraries.

## Findings

| source | as written | input that shows it | evidently intended | confidence | as-written member | corrected member |
|---|---|---|---|---|---|---|
| src/components/pages/Todos/_Footer.jsx:80 | `ClearButton` receives only the rest props, so its `completedCount` is undefined and `undefined <= 0` is false | `count = 1`, `completedCount = 0`: the footer offers "Clear completed" with nothing completed | the button shows only when `completedCount > 0` (src/components/pages/Todos/_Footer.jsx:16) | not executed | TodosFooter.FooterAsWrittenShowsClearWithNothingCompleted | TodosFooter.FooterForList |
| src/App.jsx:11-19 | `App` takes no props, so the `apolloClient` the entry point passes never reaches the view model, and the controller dereferences an undefined client | route `todos`: the controller constructor reads `watchQuery` of `undefined` (src/view_models/TodoViewModel/Controller.js:45) | `App` forwards `apolloClient` to the view model | not executed | App.AsWrittenControllerThrows | App.AppViewConstructsController |
