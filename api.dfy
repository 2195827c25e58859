/**
 * The mock persistence service: a `Store` over one persisted list of todos (the
 * `'todos'` key of `localStorage`). Each mutator reads the list, builds a new one
 * and overwrites the key.
 */
module Api {
  import opened Wrappers
  import opened Seqs
  import opened TodoData

  // ---- the list transforms the mutators apply ----

  /** `Object.assign({}, todo, { completed: !todo.completed })`. */
  function Toggled(t: Todo): Todo
  {
    t.(completed := !t.completed)
  }

  /** The list `toggleTodo(id)` writes: the map over the list, flipping the todos with that id. */
  function ToggledById(s: seq<Todo>, id: string): (r: seq<Todo>)
    ensures |r| == |s|
    ensures forall i :: 0 <= i < |s| && s[i].id != id ==> r[i] == s[i]
    ensures forall i :: 0 <= i < |s| && s[i].id == id ==>
              r[i].id == id && r[i].title == s[i].title && r[i].completed == !s[i].completed
  {
    if s == [] then []
    else
      var last := s[|s| - 1];
      ToggledById(s[..|s| - 1], id) + [if last.id != id then last else Toggled(last)]
  }

  /** The list `updateTodo(id, title)` writes: the map over the list, retitling the todos with that id. */
  function RetitledById(s: seq<Todo>, id: string, title: string): (r: seq<Todo>)
    ensures |r| == |s|
    ensures forall i :: 0 <= i < |s| && s[i].id != id ==> r[i] == s[i]
    ensures forall i :: 0 <= i < |s| && s[i].id == id ==>
              r[i].id == id && r[i].title == title && r[i].completed == s[i].completed
  {
    if s == [] then []
    else
      var last := s[|s| - 1];
      RetitledById(s[..|s| - 1], id, title) + [if last.id != id then last else last.(title := title)]
  }

  /** The list `toggleAllTodos(checked)` writes. */
  function AllCompletedSetTo(s: seq<Todo>, checked: bool): (r: seq<Todo>)
    ensures |r| == |s|
    ensures forall i :: 0 <= i < |s| ==>
              r[i].id == s[i].id && r[i].title == s[i].title && r[i].completed == checked
  {
    if s == [] then [] else AllCompletedSetTo(s[..|s| - 1], checked) + [s[|s| - 1].(completed := checked)]
  }

  /** `todos.find(todo => todo.id === id)`: the first todo with that id. */
  function FirstWithId(s: seq<Todo>, id: string): (r: Option<Todo>)
    ensures r.None? <==> id !in Ids(s)
    ensures r.Some? ==> r.value in s && r.value.id == id
    ensures r.Some? ==> exists k :: 0 <= k < |s| && s[k] == r.value && forall j :: 0 <= j < k ==> s[j].id != id
  {
    if s == [] then None
    else if s[0].id == id then Some(s[0])
    else
      assert forall t :: t in s[1..] ==> t in s;
      assert forall t :: t in s && t != s[0] ==> t in s[1..];
      FirstWithId(s[1..], id)
  }

  /** The last todo with that id: the one whose copy the captured `updated` variable ends up holding. */
  function LastWithId(s: seq<Todo>, id: string): (r: Option<Todo>)
    ensures r.None? <==> id !in Ids(s)
    ensures r.Some? ==> r.value in s && r.value.id == id
    ensures r.Some? ==> exists k :: 0 <= k < |s| && s[k] == r.value && forall j :: k < j < |s| ==> s[j].id != id
  {
    if s == [] then None
    else if s[|s| - 1].id == id then Some(s[|s| - 1])
    else
      assert forall t :: t in s[..|s| - 1] ==> t in s;
      assert forall t :: t in s && t != s[|s| - 1] ==> t in s[..|s| - 1];
      LastWithId(s[..|s| - 1], id)
  }

  /** Applies `f` to a present value. */
  function MapOption(o: Option<Todo>, f: Todo -> Todo): Option<Todo>
  {
    match o
    case None => None
    case Some(t) => Some(f(t))
  }

  /** `todo => Object.assign({}, todo, { title })`. */
  function Retitled(title: string): Todo -> Todo
  {
    (t: Todo) => t.(title := title)
  }

  // ---- the store ----

  class Store {
    /** The `'todos'` entry of `localStorage`: None until something has been stored. */
    var stored: Option<seq<Todo>>

    /** Ids are pairwise distinct. The mutators preserve it; only `CreateTodo` adds an id. */
    ghost predicate Valid()
      reads this
    {
      UniqueIds(Todos())
    }

    /** Nothing is stored in a fresh `localStorage`. */
    constructor ()
      ensures stored == None
      ensures Todos() == [] && Valid()
    {
      stored := None;
    }

    /** The `todos` getter: the stored list, or the empty list when nothing was stored. */
    function Todos(): (r: seq<Todo>)
      reads this
      ensures stored.None? ==> r == []
      ensures stored.Some? ==> r == stored.value
    {
      match stored
      case None => []
      case Some(s) => s
    }

    /** `createTodo({title})` with `id` standing for the fresh `uuid()`. */
    method CreateTodo(title: string, id: string) returns (todo: Todo)
      requires id !in Ids(Todos())
      modifies this
      ensures todo == Todo(id, title, false)
      ensures stored == Some(old(Todos()) + [todo])
      ensures Ids(Todos()) == old(Ids(Todos())) + {id}
      ensures old(Valid()) ==> Valid()
    {
      todo := Todo(id, title, false);
      var todos := Todos() + [todo];
      if Valid() {
        AppendFreshKeepsIdsUnique(Todos(), todo);
      }
      assert Ids(todos) == Ids(Todos()) + {id};
      stored := Some(todos);
    }

    /** `destroyTodo(id)`: drops every todo with that id and returns the first one, if any. */
    method DestroyTodo(id: string) returns (todo: Option<Todo>)
      modifies this
      ensures todo == FirstWithId(old(Todos()), id)
      ensures stored == Some(Filter(old(Todos()), HasNotId(id)))
      ensures Ids(Todos()) == old(Ids(Todos())) - {id}
      ensures old(Valid()) ==> Valid()
    {
      todo := FirstWithId(Todos(), id);
      var todos := Filter(Todos(), HasNotId(id));
      DestroyedIds(Todos(), id);
      if Valid() {
        FilterKeepsIdsUnique(Todos(), HasNotId(id));
      }
      stored := Some(todos);
    }

    /** `clearCompletedTodos()`: keeps the todos that are not completed and returns them. */
    method ClearCompletedTodos() returns (todos: seq<Todo>)
      modifies this
      ensures todos == Filter(old(Todos()), IsActive)
      ensures stored == Some(todos)
      ensures Ids(Todos()) <= old(Ids(Todos()))
      ensures old(Valid()) ==> Valid()
    {
      todos := Filter(Todos(), IsActive);
      if Valid() {
        FilterKeepsIdsUnique(Todos(), IsActive);
      }
      stored := Some(todos);
    }

    /** `toggleAllTodos(checked)`: sets `completed` on every todo and returns the new list. */
    method ToggleAllTodos(checked: bool) returns (todos: seq<Todo>)
      modifies this
      ensures todos == AllCompletedSetTo(old(Todos()), checked)
      ensures stored == Some(todos)
      ensures Ids(Todos()) == old(Ids(Todos()))
      ensures old(Valid()) ==> Valid()
    {
      todos := AllCompletedSetTo(Todos(), checked);
      SameIdsAt(Todos(), todos);
      stored := Some(todos);
    }

    /**
     * `toggleTodo(id)`: maps over the list, replacing each todo with that id by a toggled
     * copy that it also remembers in `updated`; returns the last such copy.
     */
    method ToggleTodo(id: string) returns (updated: Option<Todo>)
      modifies this
      ensures updated == MapOption(LastWithId(old(Todos()), id), Toggled)
      ensures stored == Some(ToggledById(old(Todos()), id))
      ensures Ids(Todos()) == old(Ids(Todos()))
      ensures old(Valid()) ==> Valid()
    {
      var current := Todos();
      var todos: seq<Todo> := [];
      updated := None;
      var i := 0;
      while i < |current|
        invariant 0 <= i <= |current|
        invariant todos == ToggledById(current[..i], id)
        invariant updated == MapOption(LastWithId(current[..i], id), Toggled)
      {
        var todo := current[i];
        assert current[..i + 1][..i] == current[..i];
        if todo.id != id {
          todos := todos + [todo];
        } else {
          updated := Some(Toggled(todo));
          todos := todos + [updated.value];
        }
        i := i + 1;
      }
      assert current[..i] == current;
      SameIdsAt(current, todos);
      stored := Some(todos);
    }

    /**
     * `updateTodo(id, title)`: maps over the list, replacing each todo with that id by a
     * retitled copy that it also remembers in `updated`; returns the last such copy.
     */
    method UpdateTodo(id: string, title: string) returns (updated: Option<Todo>)
      modifies this
      ensures updated == MapOption(LastWithId(old(Todos()), id), Retitled(title))
      ensures stored == Some(RetitledById(old(Todos()), id, title))
      ensures Ids(Todos()) == old(Ids(Todos()))
      ensures old(Valid()) ==> Valid()
    {
      var current := Todos();
      var todos: seq<Todo> := [];
      updated := None;
      var i := 0;
      while i < |current|
        invariant 0 <= i <= |current|
        invariant todos == RetitledById(current[..i], id, title)
        invariant updated == MapOption(LastWithId(current[..i], id), Retitled(title))
      {
        var todo := current[i];
        assert current[..i + 1][..i] == current[..i];
        if todo.id != id {
          todos := todos + [todo];
        } else {
          updated := Some(todo.(title := title));
          todos := todos + [updated.value];
        }
        i := i + 1;
      }
      assert current[..i] == current;
      SameIdsAt(current, todos);
      stored := Some(todos);
    }
  }

  // ---- properties of the transforms ----

  /** Two lists with the same id at every index have the same id set and the same id uniqueness. */
  lemma SameIdsAt(s: seq<Todo>, r: seq<Todo>)
    requires |r| == |s|
    requires forall i :: 0 <= i < |s| ==> r[i].id == s[i].id
    ensures Ids(r) == Ids(s)
    ensures UniqueIds(r) <==> UniqueIds(s)
  {
    forall x | x in Ids(s) ensures x in Ids(r) {
      var t :| t in s && t.id == x;
      var k :| 0 <= k < |s| && s[k] == t;
      assert r[k] in r;
    }
    forall x | x in Ids(r) ensures x in Ids(s) {
      var t :| t in r && t.id == x;
      var k :| 0 <= k < |r| && r[k] == t;
      assert s[k] in s;
    }
  }

  /** Destroying an id removes exactly that id from the list's ids. */
  lemma DestroyedIds(s: seq<Todo>, id: string)
    ensures Ids(Filter(s, HasNotId(id))) == Ids(s) - {id}
  {
    var r := Filter(s, HasNotId(id));
    forall x | x in Ids(s) - {id} ensures x in Ids(r) {
      var t :| t in s && t.id == x;
      var k :| 0 <= k < |s| && s[k] == t;
      assert HasNotId(id)(s[k]);
    }
    forall x | x in Ids(r) ensures x in Ids(s) - {id} {
      var t :| t in r && t.id == x;
      var k :| 0 <= k < |r| && r[k] == t;
      assert HasNotId(id)(r[k]);
    }
  }

  /** Toggling the same id twice restores the original list. */
  lemma ToggleTwiceRestores(s: seq<Todo>, id: string)
    ensures ToggledById(ToggledById(s, id), id) == s
  {
  }

  /** Destroying a missing id returns nothing and leaves the list as it was. */
  lemma DestroyMissingIsNoOp(s: seq<Todo>, id: string)
    requires id !in Ids(s)
    ensures FirstWithId(s, id) == None
    ensures Filter(s, HasNotId(id)) == s
  {
    forall i | 0 <= i < |s| ensures HasNotId(id)(s[i]) {
      assert s[i] in s;
    }
    FilterKeepsAll(s, HasNotId(id));
  }

  /** Toggling or retitling a missing id returns nothing and leaves the list as it was. */
  lemma MapMissingIsNoOp(s: seq<Todo>, id: string, title: string)
    requires id !in Ids(s)
    ensures LastWithId(s, id) == None
    ensures ToggledById(s, id) == s
    ensures RetitledById(s, id, title) == s
  {
    forall i | 0 <= i < |s| ensures s[i].id != id {
      assert s[i] in s;
    }
  }

  /** With distinct ids, destroying a present id shortens the list by exactly one. */
  lemma {:induction false} DestroyPresentRemovesOne(s: seq<Todo>, id: string)
    requires UniqueIds(s)
    requires id in Ids(s)
    ensures |Filter(s, HasNotId(id))| == |s| - 1
  {
    assert s == [s[0]] + s[1..];
    UniqueIdsCons(s[0], s[1..]);
    if s[0].id == id {
      DestroyMissingIsNoOp(s[1..], id);
    } else {
      var t :| t in s && t.id == id;
      assert t in s[1..];
      DestroyPresentRemovesOne(s[1..], id);
    }
  }

  /** With distinct ids, the todo `find` returns and the one `updated` ends up holding coincide. */
  lemma {:induction false} FirstIsLastWhenUnique(s: seq<Todo>, id: string)
    requires UniqueIds(s)
    ensures FirstWithId(s, id) == LastWithId(s, id)
  {
    var f, l := FirstWithId(s, id), LastWithId(s, id);
    if f.Some? {
      var i :| 0 <= i < |s| && s[i] == f.value;
      var j :| 0 <= j < |s| && s[j] == l.value;
      assert s[i].id == s[j].id;
      assert i == j;
    }
  }

  /** `clearCompletedTodos` leaves no completed todo and keeps every active one, in order. */
  lemma ClearCompletedKeepsActive(a: seq<Todo>, b: seq<Todo>)
    ensures forall t :: t in Filter(a, IsActive) ==> !t.completed
    ensures forall t :: t in a && !t.completed ==> t in Filter(a, IsActive)
    ensures Filter(a + b, IsActive) == Filter(a, IsActive) + Filter(b, IsActive)
  {
    FilterMembers(a, IsActive);
    FilterConcat(a, b, IsActive);
  }
}
