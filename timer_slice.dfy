/**
 * The leftover `timer` slice: despite its action names it is a to-do list.
 * `incrementCompletedSessions` appends an item and `incrementTotalFocus`
 * flips the `completed` flag of the first item with the given id. On an
 * unknown id the source dereferences `undefined` and throws, so the
 * reducer fails and the state stays as it was.
 */
module TimerSlice {
  import opened Wrappers
  import Seqs

  datatype Todo = Todo(id: string, text: string, completed: bool)

  function TodoId(t: Todo): string {
    t.id
  }

  /** `state.find((todo) => todo.id === id)`, as an index. */
  function FirstTodoIndex(items: seq<Todo>, id: string): Option<nat> {
    Seqs.FindIndex(items, TodoId, id)
  }

  /** The list after `incrementTotalFocus`, or `None` when the reducer throws. */
  function ToggleFirst(items: seq<Todo>, id: string): (r: Option<seq<Todo>>)
    ensures r.None? <==> forall j :: 0 <= j < |items| ==> items[j].id != id
    ensures r.Some? ==> |r.value| == |items|
    ensures r.Some? ==> forall j :: 0 <= j < |items| ==> r.value[j].id == items[j].id && r.value[j].text == items[j].text
  {
    match FirstTodoIndex(items, id)
    case None => None
    case Some(i) => Some(items[i := items[i].(completed := !items[i].completed)])
  }

  /** Toggling the same id twice gives back the original list. */
  lemma ToggleTwice(items: seq<Todo>, id: string)
    requires ToggleFirst(items, id).Some?
    ensures ToggleFirst(ToggleFirst(items, id).value, id) == Some(items)
  {
    var i := FirstTodoIndex(items, id).value;
    var once := ToggleFirst(items, id).value;
    assert once[i].id == id;
    assert forall j :: 0 <= j < i ==> once[j].id == items[j].id;
    assert FirstTodoIndex(once, id) == Some(i);
    assert once[i := once[i].(completed := !once[i].completed)] == items;
  }

  /** Toggling changes only the first item with that id, and only its flag. */
  lemma ToggleOnlyFirst(items: seq<Todo>, id: string, j: nat)
    requires ToggleFirst(items, id).Some? && j < |items|
    ensures var r := ToggleFirst(items, id).value;
            r[j].completed == (if Some(j) == FirstTodoIndex(items, id) then !items[j].completed
                               else items[j].completed)
  {
  }

  class TodoStore {
    var items: seq<Todo>

    constructor ()
      ensures items == []
    {
      items := [];
    }

    method IncrementCompletedSessions(id: string, text: string)
      modifies this
      ensures items == old(items) + [Todo(id, text, false)]
    {
      items := items + [Todo(id, text, false)];
    }

    /** Returns false, leaving the list unchanged, when the source would throw. */
    method IncrementTotalFocus(id: string) returns (ok: bool)
      modifies this
      ensures ok == ToggleFirst(old(items), id).Some?
      ensures items == ToggleFirst(old(items), id).GetOr(old(items))
    {
      var found := FirstTodoIndex(items, id);
      if found.None? {
        return false;
      }
      var i := found.value;
      items := items[i := items[i].(completed := !items[i].completed)];
      ok := true;
    }
  }
}
