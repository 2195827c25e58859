/** The application's route names and route table. */
module Routes {
  import opened Wrappers

  /** `pathNames`. */
  const TODOS: string := "todos"
  const TODOS_ACTIVE: string := "todos.active"
  const TODOS_COMPLETED: string := "todos.completed"

  datatype Route = Route(name: string, path: string)

  /** The exported route table. */
  const RouteTable: seq<Route> := [
    Route(TODOS, "/"),
    Route(TODOS_ACTIVE, "/active"),
    Route(TODOS_COMPLETED, "/completed")
  ]

  /** The path the table gives a route name, if it has one. */
  function PathOf(table: seq<Route>, name: string): (p: Option<string>)
    ensures p.Some? ==> Route(name, p.value) in table
    ensures p.None? ==> forall i :: 0 <= i < |table| ==> table[i].name != name
  {
    if table == [] then None
    else if table[0].name == name then Some(table[0].path)
    else PathOf(table[1..], name)
  }

  /** Three entries, with pairwise distinct names and pairwise distinct paths. */
  lemma RouteTableIsInjective()
    ensures |RouteTable| == 3
    ensures forall i, j :: 0 <= i < j < |RouteTable| ==> RouteTable[i].name != RouteTable[j].name
    ensures forall i, j :: 0 <= i < j < |RouteTable| ==> RouteTable[i].path != RouteTable[j].path
  {
  }

  /** Each name maps to its path. */
  lemma RoutePaths()
    ensures PathOf(RouteTable, TODOS) == Some("/")
    ensures PathOf(RouteTable, TODOS_ACTIVE) == Some("/active")
    ensures PathOf(RouteTable, TODOS_COMPLETED) == Some("/completed")
  {
    var rest := RouteTable[1..];
    assert rest[1..] == [Route(TODOS_COMPLETED, "/completed")];
    assert |TODOS_ACTIVE| != |TODOS_COMPLETED| && |TODOS| != |TODOS_COMPLETED|;
    assert PathOf(rest[1..], TODOS_COMPLETED) == Some("/completed");
    assert PathOf(rest, TODOS_COMPLETED) == Some("/completed");
  }
}
