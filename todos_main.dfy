/** The list part of the todos page: the visible subset, the toggle-all box and the single `editing` cell. */
module TodosMain {
  import opened Wrappers
  import opened Seqs
  import opened TodoData
  import opened ViewModel
  import opened Controller
  import TodosPage

  /** The filter callback of `shownTodos`, by `nowShowing`; unknown values show everything. */
  predicate Shows(nowShowing: string, t: Todo)
  {
    if nowShowing == FilterValue(ActiveTodos) then !t.completed
    else if nowShowing == FilterValue(CompletedTodos) then t.completed
    else true
  }

  /** `shownTodos(todos, nowShowing)`. */
  function ShownTodos(todos: seq<Todo>, nowShowing: string): seq<Todo>
  {
    Filter(todos, (t: Todo) => Shows(nowShowing, t))
  }

  /**
   * The active filter shows exactly the active todos, the completed filter exactly the
   * completed ones (both in original order), and any other value the whole list.
   */
  lemma ShownTodosByFilter(todos: seq<Todo>, nowShowing: string)
    ensures nowShowing == FilterValue(ActiveTodos) ==> ShownTodos(todos, nowShowing) == Filter(todos, IsActive)
    ensures nowShowing == FilterValue(CompletedTodos) ==> ShownTodos(todos, nowShowing) == Filter(todos, IsCompleted)
    ensures nowShowing != FilterValue(ActiveTodos) && nowShowing != FilterValue(CompletedTodos) ==>
              ShownTodos(todos, nowShowing) == todos
  {
    var p := (t: Todo) => Shows(nowShowing, t);
    if nowShowing == FilterValue(ActiveTodos) {
      FilterAgrees(todos, p, IsActive);
    } else if nowShowing == FilterValue(CompletedTodos) {
      FilterAgrees(todos, p, IsCompleted);
    } else {
      FilterKeepsAll(todos, p);
    }
  }

  /** The active and the completed views split the list: their lengths add up to its length. */
  lemma ActiveAndCompletedViewsPartition(todos: seq<Todo>)
    ensures |ShownTodos(todos, "active")| + |ShownTodos(todos, "completed")| == |todos|
  {
    ShownTodosByFilter(todos, "active");
    ShownTodosByFilter(todos, "completed");
    FilterPartition(todos, IsActive, IsCompleted);
  }

  /** One rendered `TodoItem`: its todo and its `editing` flag. */
  datatype ItemView = ItemView(todo: Todo, editing: bool)

  /** The rendered section: the toggle-all box's `checked` and the items. */
  datatype MainView = MainView(toggleAllChecked: bool, items: seq<ItemView>)

  /** `filtered.map(todo => <TodoItem todo editing={editing === todo.id} .../>)`. */
  function Items(shown: seq<Todo>, editing: Option<string>): (r: seq<ItemView>)
    ensures |r| == |shown|
    ensures forall i :: 0 <= i < |shown| ==> r[i].todo == shown[i] && (r[i].editing <==> editing == Some(shown[i].id))
  {
    if shown == [] then [] else [ItemView(shown[0], editing == Some(shown[0].id))] + Items(shown[1..], editing)
  }

  /** `Main`: nothing for an empty list; otherwise the toggle-all box and the visible items. */
  function Main(todos: seq<Todo>, activeTodoCount: int, nowShowing: string, editing: Option<string>): (v: Option<MainView>)
    ensures v.None? <==> |todos| == 0
    ensures v.Some? ==> v.value.toggleAllChecked == (activeTodoCount == 0)
                        && v.value.items == Items(ShownTodos(todos, nowShowing), editing)
  {
    if |todos| <= 0 then None
    else Some(MainView(activeTodoCount == 0, Items(ShownTodos(todos, nowShowing), editing)))
  }

  /** With distinct ids, at most one rendered item is flagged as editing. */
  lemma AtMostOneItemEditing(todos: seq<Todo>, activeTodoCount: int, nowShowing: string, editing: Option<string>)
    requires UniqueIds(todos)
    requires Main(todos, activeTodoCount, nowShowing, editing).Some?
    ensures forall i, j :: 0 <= i < j < |Main(todos, activeTodoCount, nowShowing, editing).value.items| ==>
              !(Main(todos, activeTodoCount, nowShowing, editing).value.items[i].editing
                && Main(todos, activeTodoCount, nowShowing, editing).value.items[j].editing)
  {
    FilterKeepsIdsUnique(todos, (t: Todo) => Shows(nowShowing, t));
  }

  /** With the page's count, the toggle-all box is checked exactly when every todo is completed. */
  lemma ToggleAllCheckedIffAllCompleted(todos: seq<Todo>, nowShowing: string, editing: Option<string>)
    requires todos != []
    ensures Main(todos, TodosPage.ActiveTodoCount(todos), nowShowing, editing).value.toggleAllChecked
            <==> forall i :: 0 <= i < |todos| ==> todos[i].completed
  {
    var active := Filter(todos, IsActive);
    if exists i :: 0 <= i < |todos| && !todos[i].completed {
      var i :| 0 <= i < |todos| && !todos[i].completed;
      assert todos[i] in active;
    } else {
      FilterDropsAll(todos, IsActive);
    }
  }

  /** The `editing` state cell of `Main`: the id of the todo being edited, if any. */
  class EditingCell {
    var editing: Option<string>

    constructor ()
      ensures editing == None
    {
      editing := None;
    }

    /** `onEdit`: that todo becomes the one being edited. */
    method OnEdit(todo: Todo)
      modifies this
      ensures editing == Some(todo.id)
    {
      editing := Some(todo.id);
    }

    /** `onSave(title)`: saves through the controller, then stops editing. */
    method OnSave(todo: Todo, title: string, c: Controller)
      modifies this, c
      ensures editing == None
      ensures c.issued == old(c.issued) + [RequestFor(Call.SaveTodo(todo, title))]
      ensures c.dispatched == old(c.dispatched)
    {
      c.SaveTodo(todo, title);
      editing := None;
    }

    /** `onCancel`: stops editing. */
    method OnCancel()
      modifies this
      ensures editing == None
    {
      editing := None;
    }
  }
}
