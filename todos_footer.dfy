/**
 * The footer of the todos page: when it shows, which filter link is selected, when the
 * clear-completed button shows, and the memo comparators of the footer and its links.
 */
module TodosFooter {
  import opened Wrappers
  import opened Seqs
  import opened TodoData
  import opened JsValues
  import opened Routes
  import opened ViewModel
  import TodosPage

  /**
   * `ClearButton` called as a plain function: it renders nothing when `completedCount <= 0`.
   * An undefined count compares as NaN, and `NaN <= 0` is false, so it renders then.
   */
  function ClearButtonShown(completedCount: Option<int>): (shown: bool)
    ensures completedCount.None? ==> shown
    ensures completedCount.Some? ==> (shown <==> completedCount.value > 0)
  {
    match completedCount
    case None => true
    case Some(n) => !(n <= 0)
  }

  /** One filter link: its caption, the route it targets and whether it is marked selected. */
  datatype Link = Link(caption: string, routeName: string, selected: bool)

  /** The rendered footer: the active count, the three links, and whether the clear button shows. */
  datatype FooterView = FooterView(count: int, links: seq<Link>, clearButton: bool)

  /** The links, each selected when `nowShowing` is its filter. */
  function Links(nowShowing: string): seq<Link>
  {
    [ Link("All", TODOS, nowShowing == FilterValue(AllTodos)),
      Link("Active", TODOS_ACTIVE, nowShowing == FilterValue(ActiveTodos)),
      Link("Completed", TODOS_COMPLETED, nowShowing == FilterValue(CompletedTodos)) ]
  }

  /**
   * `Footer` as written: the button receives `{ ...props }`, the props left after
   * `count`, `completedCount` and `nowShowing` were taken out, so its count is undefined.
   */
  function FooterAsWritten(count: int, completedCount: int, nowShowing: string): (v: Option<FooterView>)
    ensures v.None? <==> count == 0 && completedCount == 0
    ensures v.Some? ==> v.value.clearButton
  {
    if count == 0 && completedCount == 0 then None
    else Some(FooterView(count, Links(nowShowing), ClearButtonShown(None)))
  }

  /** As written, a footer with one active todo and nothing completed still offers "Clear completed". */
  lemma FooterAsWrittenShowsClearWithNothingCompleted()
    ensures FooterAsWritten(1, 0, FilterValue(AllTodos)).Some?
    ensures FooterAsWritten(1, 0, FilterValue(AllTodos)).value.clearButton
  {
  }

  /** `Footer` with `completedCount` handed to the button, as `ClearButton`'s own props declare. */
  function Footer(count: int, completedCount: int, nowShowing: string): (v: Option<FooterView>)
    ensures v.None? <==> count == 0 && completedCount == 0
    ensures v.Some? ==> (v.value.clearButton <==> completedCount > 0)
    ensures v.Some? ==> v.value.count == count && v.value.links == Links(nowShowing)
  {
    if count == 0 && completedCount == 0 then None
    else Some(FooterView(count, Links(nowShowing), ClearButtonShown(Some(completedCount))))
  }

  /** With the page's counts, the footer hides only for an empty list and offers clearing only when something is done. */
  lemma FooterForList(todos: seq<Todo>, nowShowing: string)
    ensures Footer(TodosPage.ActiveTodoCount(todos), TodosPage.CompletedCount(todos), nowShowing).None? <==> todos == []
    ensures todos != [] ==>
      (Footer(TodosPage.ActiveTodoCount(todos), TodosPage.CompletedCount(todos), nowShowing).value.clearButton
       <==> exists i :: 0 <= i < |todos| && todos[i].completed)
  {
    var done := Filter(todos, IsCompleted);
    if exists i :: 0 <= i < |todos| && todos[i].completed {
      var i :| 0 <= i < |todos| && todos[i].completed;
      assert todos[i] in done;
    } else {
      FilterDropsAll(todos, IsCompleted);
    }
  }

  /** At most one link is selected, and exactly one when `nowShowing` is a filter value. */
  lemma AtMostOneLinkSelected(nowShowing: string)
    ensures forall i, j :: 0 <= i < j < |Links(nowShowing)| ==> !(Links(nowShowing)[i].selected && Links(nowShowing)[j].selected)
    ensures (exists f :: nowShowing == FilterValue(f)) ==> exists i :: 0 <= i < |Links(nowShowing)| && Links(nowShowing)[i].selected
  {
    if exists f :: nowShowing == FilterValue(f) {
      var f :| nowShowing == FilterValue(f);
      assert Links(nowShowing)[match f case AllTodos => 0 case ActiveTodos => 1 case CompletedTodos => 2].selected;
    }
  }

  /** On any route, the selected link is the one whose target route selects the page's current filter. */
  lemma SelectedLinkTargetsCurrentFilter(routeName: string, i: int)
    requires 0 <= i < 3
    ensures Links(FilterValue(TodosPage.FilterForRoute(routeName)))[i].selected
            <==> TodosPage.FilterForRoute(Links(FilterValue(TodosPage.FilterForRoute(routeName)))[i].routeName)
                 == TodosPage.FilterForRoute(routeName)
  {
    assert TODOS != TODOS_ACTIVE && TODOS != TODOS_COMPLETED;
  }

  // ---- memo comparators ----

  /**
   * `keys.reduce((memo, key) => memo && prev[key] === next[key], memo)`.
   */
  function AllKeysEqualFrom(memo: bool, keys: seq<string>, prev: Object, next: Object): (r: bool)
    ensures r <==> memo && forall i :: 0 <= i < |keys| ==> Get(prev, keys[i]) == Get(next, keys[i])
    decreases keys
  {
    if keys == [] then memo
    else AllKeysEqualFrom(memo && Get(prev, keys[0]) == Get(next, keys[0]), keys[1..], prev, next)
  }

  /** The props `MemoLink` compares. */
  const MemoLinkKeys: seq<string> := ["className", "routeName", "children"]

  /** `Object.keys(Footer.propTypes)`. */
  const FooterPropKeys: seq<string> := ["completedCount", "count", "nowShowing"]

  /** `MemoLink`'s comparator: skip the re-render when its three props are all `===`. */
  predicate MemoLinkSkips(prev: Object, next: Object)
  {
    AllKeysEqualFrom(true, MemoLinkKeys, prev, next)
  }

  /** `Footer`'s memo comparator over its declared prop types. */
  predicate FooterSkips(prev: Object, next: Object)
  {
    AllKeysEqualFrom(true, FooterPropKeys, prev, next)
  }

  /** `MemoLink` skips exactly when `className`, `routeName` and `children` are all unchanged. */
  lemma MemoLinkSkipsIff(prev: Object, next: Object)
    ensures MemoLinkSkips(prev, next) <==>
              Get(prev, "className") == Get(next, "className")
              && Get(prev, "routeName") == Get(next, "routeName")
              && Get(prev, "children") == Get(next, "children")
  {
    assert MemoLinkKeys[0] == "className" && MemoLinkKeys[1] == "routeName" && MemoLinkKeys[2] == "children";
  }

  /**
   * The footer skips exactly when `completedCount`, `count` and `nowShowing` are unchanged;
   * a new `onClearCompleted` alone does not re-render it.
   */
  lemma FooterSkipsIff(prev: Object, next: Object, handler: Value)
    ensures FooterSkips(prev, next) <==>
              Get(prev, "completedCount") == Get(next, "completedCount")
              && Get(prev, "count") == Get(next, "count")
              && Get(prev, "nowShowing") == Get(next, "nowShowing")
    ensures FooterSkips(prev, prev["onClearCompleted" := handler])
  {
    assert FooterPropKeys[0] == "completedCount" && FooterPropKeys[1] == "count" && FooterPropKeys[2] == "nowShowing";
  }
}
