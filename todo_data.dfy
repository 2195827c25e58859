/** The todo record stored by the mock service and shown by the views, and facts about lists of them. */
module TodoData {
  import opened Seqs

  /** `{id, title, completed}`. */
  datatype Todo = Todo(id: string, title: string, completed: bool)

  /** The ids occurring in a list. */
  function Ids(s: seq<Todo>): set<string>
  {
    set t | t in s :: t.id
  }

  /** No two todos of the list share an id. */
  predicate UniqueIds(s: seq<Todo>)
  {
    forall i, j :: 0 <= i < j < |s| ==> s[i].id != s[j].id
  }

  /** `!todo.completed`. */
  predicate IsActive(t: Todo)
  {
    !t.completed
  }

  /** `todo.completed`. */
  predicate IsCompleted(t: Todo)
  {
    t.completed
  }

  /** `todo => todo.id !== id`. */
  function HasNotId(id: string): Todo -> bool
  {
    (t: Todo) => t.id != id
  }

  lemma UniqueIdsCons(x: Todo, r: seq<Todo>)
    ensures UniqueIds([x] + r) <==> UniqueIds(r) && x.id !in Ids(r)
  {
    var s := [x] + r;
    if UniqueIds(r) && x.id !in Ids(r) {
      forall i, j | 0 <= i < j < |s| ensures s[i].id != s[j].id {
        if i == 0 {
          assert s[j] == r[j - 1];
          assert s[j] in r;
        } else {
          assert s[i] == r[i - 1] && s[j] == r[j - 1];
        }
      }
    }
    if UniqueIds(s) {
      forall i, j | 0 <= i < j < |r| ensures r[i].id != r[j].id {
        assert r[i] == s[i + 1] && r[j] == s[j + 1];
      }
      forall t | t in r ensures t.id != x.id {
        var k :| 0 <= k < |r| && r[k] == t;
        assert s[0] == x && s[k + 1] == t;
        assert s[0].id != s[k + 1].id;
      }
    }
  }

  /** Filtering never makes ids collide: a filtered list keeps distinct ids distinct. */
  lemma {:induction false} FilterKeepsIdsUnique(s: seq<Todo>, p: Todo -> bool)
    requires UniqueIds(s)
    ensures UniqueIds(Filter(s, p))
  {
    if s != [] {
      assert s == [s[0]] + s[1..];
      UniqueIdsCons(s[0], s[1..]);
      FilterKeepsIdsUnique(s[1..], p);
      if p(s[0]) {
        UniqueIdsCons(s[0], Filter(s[1..], p));
      }
    }
  }

  /** Appending a todo whose id is fresh keeps ids distinct and adds exactly that id. */
  lemma AppendFreshKeepsIdsUnique(s: seq<Todo>, t: Todo)
    requires UniqueIds(s)
    requires t.id !in Ids(s)
    ensures UniqueIds(s + [t])
    ensures Ids(s + [t]) == Ids(s) + {t.id}
  {
    var r := s + [t];
    forall i, j | 0 <= i < j < |r| ensures r[i].id != r[j].id {
      if j == |s| {
        assert r[i] == s[i];
        assert s[i] in s;
      }
    }
  }
}
