/**
 * One todo item: a small state machine over the `editText` cell, driven by submit, edit,
 * key and change events, and the memo comparator that decides when it re-renders.
 */
module TodosItem {
  import opened Text
  import opened TodoData
  import opened JsValues

  const ESCAPE_KEY: int := 27
  const ENTER_KEY: int := 13

  /** The parent callbacks an item invokes. */
  datatype Callback = OnSave(title: string) | OnDestroy | OnEdit | OnCancel

  /** The effect of one handler: the new `editText` and the callbacks it invoked, in order. */
  datatype Step = Step(editText: string, calls: seq<Callback>)

  /** `handleSubmit`: saves the trimmed text and keeps it, or, when the text is blank, destroys the todo. */
  function SubmitStep(editText: string): (s: Step)
    ensures !IsBlank(editText) ==> s == Step(Trim(editText), [OnSave(Trim(editText))])
    ensures IsBlank(editText) ==> s == Step(editText, [OnDestroy])
  {
    var val := Trim(editText);
    TrimEmptyIffBlank(editText);
    if val != "" then Step(val, [OnSave(val)]) else Step(editText, [OnDestroy])
  }

  /** `handleEdit`: tells the parent, then resets the text to the todo's title. */
  function EditStep(todo: Todo): Step
  {
    Step(todo.title, [OnEdit])
  }

  /** `handleKeyDown`: Escape cancels and restores the title, Enter submits, other keys do nothing. */
  function KeyDownStep(editText: string, which: int, todo: Todo): (s: Step)
    ensures which == ESCAPE_KEY ==> s == Step(todo.title, [OnCancel])
    ensures which == ENTER_KEY ==> s == SubmitStep(editText)
    ensures which != ESCAPE_KEY && which != ENTER_KEY ==> s == Step(editText, [])
  {
    if which == ESCAPE_KEY then Step(todo.title, [OnCancel])
    else if which == ENTER_KEY then SubmitStep(editText)
    else Step(editText, [])
  }

  /** `handleChange`: the text follows the input only while editing. */
  function ChangeStep(editText: string, value: string, editing: bool): Step
  {
    Step(if editing then value else editText, [])
  }

  /**
   * Submitting never saves a blank or untrimmed title, and invokes exactly one of save and
   * destroy; what is saved is also what the input then shows.
   */
  lemma SubmitSavesTrimmedOrDestroys(editText: string)
    ensures |SubmitStep(editText).calls| == 1
    ensures SubmitStep(editText).calls[0].OnSave? || SubmitStep(editText).calls[0] == OnDestroy
    ensures SubmitStep(editText).calls[0].OnSave? ==>
              var title := SubmitStep(editText).calls[0].title;
              title != [] && Trim(title) == title && title == SubmitStep(editText).editText
  {
    TrimIdempotent(editText);
    TrimEmptyIffBlank(editText);
  }

  /** Neither edit nor escape saves or destroys; both leave the input showing the todo's title. */
  lemma EditAndEscapeRestoreTitle(editText: string, todo: Todo)
    ensures EditStep(todo).editText == todo.title && EditStep(todo).calls == [OnEdit]
    ensures KeyDownStep(editText, ESCAPE_KEY, todo).editText == todo.title
    ensures forall c :: c in KeyDownStep(editText, ESCAPE_KEY, todo).calls ==> !c.OnSave? && c != OnDestroy
  {
  }

  /** The `editText` cell and the log of callbacks the item has invoked. */
  class ItemState {
    var editText: string
    var calls: seq<Callback>

    /** `useState(todo.title)`. */
    constructor (todo: Todo)
      ensures editText == todo.title && calls == []
    {
      editText, calls := todo.title, [];
    }

    method Apply(s: Step)
      modifies this
      ensures editText == s.editText && calls == old(calls) + s.calls
    {
      editText, calls := s.editText, calls + s.calls;
    }

    method HandleSubmit()
      modifies this
      ensures editText == SubmitStep(old(editText)).editText
      ensures calls == old(calls) + SubmitStep(old(editText)).calls
    {
      Apply(SubmitStep(editText));
    }

    method HandleEdit(todo: Todo)
      modifies this
      ensures editText == todo.title && calls == old(calls) + [OnEdit]
    {
      Apply(EditStep(todo));
    }

    method HandleKeyDown(which: int, todo: Todo)
      modifies this
      ensures editText == KeyDownStep(old(editText), which, todo).editText
      ensures calls == old(calls) + KeyDownStep(old(editText), which, todo).calls
    {
      Apply(KeyDownStep(editText, which, todo));
    }

    method HandleChange(value: string, editing: bool)
      modifies this
      ensures editText == (if editing then value else old(editText))
      ensures calls == old(calls)
    {
      Apply(ChangeStep(editText, value, editing));
    }
  }

  /** The `React.memo` comparator: true (skip the re-render) when `todo` and `editing` are both `===`. */
  predicate SkipsRerender(prev: Object, next: Object)
  {
    Get(prev, "todo") == Get(next, "todo") && Get(prev, "editing") == Get(next, "editing")
  }

  /**
   * Changing any other prop (the callbacks, which are rebuilt on every render) does not
   * re-render an item; changing `todo` or `editing` does.
   */
  lemma RerenderOnlyOnTodoOrEditing(props: Object, key: string, v: Value)
    ensures SkipsRerender(props, props)
    ensures key != "todo" && key != "editing" ==> SkipsRerender(props, props[key := v])
    ensures (key == "todo" || key == "editing") && Get(props, key) != v ==> !SkipsRerender(props, props[key := v])
  {
  }
}
