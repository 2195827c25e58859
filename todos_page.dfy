/**
 * The todos page: derives the filter from the route, counts active and completed todos,
 * picks the toggle-all direction and handles the new-todo input.
 */
module TodosPage {
  import opened Wrappers
  import opened Seqs
  import opened Text
  import opened TodoData
  import opened Routes
  import opened ViewModel
  import opened Controller
  import Api

  const ENTER_KEY: int := 13

  /** `filterForRoute(route)`: the nested routes select their filter; every other name shows all. */
  function FilterForRoute(name: string): (f: TodoFilter)
    ensures f == ActiveTodos <==> name == TODOS_ACTIVE
    ensures f == CompletedTodos <==> name == TODOS_COMPLETED
    ensures f == AllTodos <==> name != TODOS_ACTIVE && name != TODOS_COMPLETED
  {
    if name == TODOS_ACTIVE then ActiveTodos
    else if name == TODOS_COMPLETED then CompletedTodos
    else AllTodos
  }

  /** The `reduce` step by step: `acc` plus one for every todo of `s` that is not completed. */
  function CountActiveFrom(acc: nat, s: seq<Todo>): (n: nat)
    ensures n == acc + |Filter(s, IsActive)|
    decreases s
  {
    if s == [] then acc
    else CountActiveFrom(if s[0].completed then acc else acc + 1, s[1..])
  }

  /** `activeTodoCount`. */
  function ActiveTodoCount(todos: seq<Todo>): (n: nat)
    ensures n == |Filter(todos, IsActive)|
  {
    CountActiveFrom(0, todos)
  }

  /** `completedCount = todos.length - activeTodoCount`: the number of completed todos. */
  function CompletedCount(todos: seq<Todo>): (n: int)
    ensures n == |Filter(todos, IsCompleted)|
    ensures n + ActiveTodoCount(todos) == |todos|
  {
    FilterPartition(todos, IsActive, IsCompleted);
    |todos| - ActiveTodoCount(todos)
  }

  /** `toggleDir`: toggle-all completes everything unless completed todos outnumber active ones. */
  function ToggleDir(todos: seq<Todo>): bool
  {
    CompletedCount(todos) - ActiveTodoCount(todos) <= 0
  }

  /**
   * Toggle-all on a list that is entirely completed clears every todo; on a list with
   * nothing completed it completes every todo.
   */
  lemma ToggleDirFlipsUniformLists(todos: seq<Todo>)
    ensures ToggleDir(todos) <==> CompletedCount(todos) <= ActiveTodoCount(todos)
    ensures todos != [] && (forall i :: 0 <= i < |todos| ==> todos[i].completed) ==>
              !ToggleDir(todos) && forall t :: t in Api.AllCompletedSetTo(todos, ToggleDir(todos)) ==> !t.completed
    ensures (forall i :: 0 <= i < |todos| ==> !todos[i].completed) ==>
              ToggleDir(todos) && forall t :: t in Api.AllCompletedSetTo(todos, ToggleDir(todos)) ==> t.completed
  {
    if forall i :: 0 <= i < |todos| ==> todos[i].completed {
      FilterKeepsAll(todos, IsCompleted);
    }
    if forall i :: 0 <= i < |todos| ==> !todos[i].completed {
      FilterKeepsAll(todos, IsActive);
    }
  }

  /** What a key press in the new-todo input does: the title it adds, if any, and the input's new text. */
  datatype KeyDownEffect = KeyDownEffect(added: Option<string>, newTodo: string)

  /** `handleNewTodoKeyDown`: Enter adds the trimmed text and clears the input, unless the text is blank. */
  function NewTodoKeyDown(newTodo: string, keyCode: int): (e: KeyDownEffect)
    ensures keyCode != ENTER_KEY ==> e == KeyDownEffect(None, newTodo)
    ensures keyCode == ENTER_KEY && IsBlank(newTodo) ==> e == KeyDownEffect(None, newTodo)
    ensures keyCode == ENTER_KEY && !IsBlank(newTodo) ==> e == KeyDownEffect(Some(Trim(newTodo)), "")
  {
    if keyCode != ENTER_KEY then KeyDownEffect(None, newTodo)
    else
      var title := Trim(newTodo);
      TrimEmptyIffBlank(newTodo);
      if title != "" then KeyDownEffect(Some(title), "") else KeyDownEffect(None, newTodo)
  }

  /** A title the input adds is never empty and carries no surrounding whitespace. */
  lemma AddedTitleIsTrimmed(newTodo: string, keyCode: int)
    requires NewTodoKeyDown(newTodo, keyCode).added.Some?
    ensures NewTodoKeyDown(newTodo, keyCode).added.value != []
    ensures Trim(NewTodoKeyDown(newTodo, keyCode).added.value) == NewTodoKeyDown(newTodo, keyCode).added.value
    ensures !IsSpace(NewTodoKeyDown(newTodo, keyCode).added.value[0])
  {
    TrimIdempotent(newTodo);
    TrimIsBorderedSlice(newTodo);
  }

  /** The `newTodo` state cell of the page. */
  class NewTodoInput {
    var newTodo: string

    constructor ()
      ensures newTodo == ""
    {
      newTodo := "";
    }

    /** `handleChange`: the input's text becomes the event's value. */
    method Change(value: string)
      modifies this
      ensures newTodo == value
    {
      newTodo := value;
    }

    /** `handleNewTodoKeyDown`: calls `addTodo` once with the trimmed title, or nothing. */
    method KeyDown(keyCode: int, c: Controller)
      modifies this, c
      ensures newTodo == NewTodoKeyDown(old(newTodo), keyCode).newTodo
      ensures c.issued == old(c.issued) + (match NewTodoKeyDown(old(newTodo), keyCode).added
                                            case None => []
                                            case Some(title) => [RequestFor(Call.AddTodo(title))])
      ensures c.dispatched == old(c.dispatched)
    {
      var e := NewTodoKeyDown(newTodo, keyCode);
      if e.added.Some? {
        c.AddTodo(e.added.value);
      }
      newTodo := e.newTodo;
    }
  }

  /** The toggle-all handler: `controller.toggleAllTodos(toggleDir)`. */
  method ToggleAll(todos: seq<Todo>, c: Controller)
    modifies c
    ensures c.issued == old(c.issued) + [RequestFor(Call.ToggleAllTodos(ToggleDir(todos)))]
    ensures c.dispatched == old(c.dispatched)
  {
    c.ToggleAllTodos(ToggleDir(todos));
  }
}
