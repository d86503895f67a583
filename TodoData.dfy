/**
 * The todo store (the `Todos` set of ApplicationDbContext) and the results
 * the controllers and the ownership filter answer with.
 *
 * A Guid key is a natural number and a UTC DateTime an integer. The store is
 * a sequence in store order; its keys are unique, as the primary key makes
 * them.
 */
module TodoData {
  import opened Wrappers

  type TodoId = nat
  type Time = int

  datatype Todo = Todo(
    id: TodoId,
    title: string,
    body: string,
    isCompleted: bool,
    userId: string,
    updatedAt: Option<Time>,
    deletedAt: Option<Time>)

  /** The HTTP results of the todo endpoints and of the ownership filter. */
  datatype ActionResult =
    | Ok(todo: Todo)
    | OkList(items: seq<Todo>)
    | NoContent
    | Unauthorized
    | BadRequest
    | NotFound
    | ServerError

  /** No two todos share a key. */
  predicate UniqueIds(todos: seq<Todo>)
  {
    forall i, j :: 0 <= i < j < |todos| ==> todos[i].id != todos[j].id
  }

  /** The position of the todo with that key, if any. */
  function IndexOf(todos: seq<Todo>, id: TodoId): (r: Option<nat>)
    ensures r.Some? ==> r.value < |todos| && todos[r.value].id == id
    ensures r.Some? ==> forall j :: 0 <= j < r.value ==> todos[j].id != id
    ensures r.None? ==> forall j :: 0 <= j < |todos| ==> todos[j].id != id
  {
    if todos == [] then None
    else if todos[0].id == id then Some(0)
    else match IndexOf(todos[1..], id)
      case None => None
      case Some(k) => Some(k + 1)
  }

  /** DbSet.Find: the todo with that key, deleted or not. */
  function Find(todos: seq<Todo>, id: TodoId): (r: Option<Todo>)
    ensures r.Some? ==> r.value in todos && r.value.id == id
    ensures r.None? ==> forall t :: t in todos ==> t.id != id
  {
    match IndexOf(todos, id)
    case None => None
    case Some(i) => Some(todos[i])
  }

  /** Two stores that hold the same keys in the same order find a key at the same position. */
  lemma IndexOfSameKeys(a: seq<Todo>, b: seq<Todo>, id: TodoId)
    requires |a| == |b|
    requires forall j :: 0 <= j < |a| ==> a[j].id == b[j].id
    ensures IndexOf(a, id) == IndexOf(b, id)
  {
  }

  /** The todos the application stores, updated in place by the controllers. */
  class TodoDb {
    var todos: seq<Todo>

    ghost predicate Valid()
      reads this
    {
      UniqueIds(todos)
    }

    constructor ()
      ensures Valid() && todos == []
    {
      todos := [];
    }
  }
}
