/**
 * The todo endpoints: create, list (owner's live todos, five per page),
 * update and soft delete. Update and delete run behind the ownership filter.
 *
 * The caller's id is an input (None when the request carries none), the
 * current time is the `now` parameter, and the key of a new todo is the
 * `newId` parameter.
 */
module TodosController {
  import opened Wrappers
  import opened TodoData
  import opened LoggedInUserAttribute

  const PageSize := 5

  datatype TodoDto = TodoDto(title: string, body: string, isCompleted: bool)

  // ---------------------------------------------------------------------------
  // Specification of the store after each operation
  // ---------------------------------------------------------------------------

  /** The todo CreateTodo adds; the dto's completion flag is not copied. */
  function NewTodo(id: TodoId, dto: TodoDto, userId: string): Todo
  {
    Todo(id, dto.title, dto.body, false, userId, None, None)
  }

  /** A todo with the fields UpdateTodo overwrites. */
  function WithEdits(todo: Todo, dto: TodoDto, now: Time): Todo
  {
    todo.(title := dto.title, body := dto.body, isCompleted := dto.isCompleted, updatedAt := Some(now))
  }

  /** The store after UpdateTodo: only the todo with that key changes, and not its key, owner or deletion. */
  function Updated(todos: seq<Todo>, todoId: TodoId, dto: TodoDto, now: Time): (r: seq<Todo>)
    ensures |r| == |todos|
    ensures forall j :: 0 <= j < |todos| ==>
      r[j].id == todos[j].id && r[j].userId == todos[j].userId && r[j].deletedAt == todos[j].deletedAt
    ensures forall j :: 0 <= j < |todos| && todos[j].id != todoId ==> r[j] == todos[j]
    ensures Find(todos, todoId).None? ==> r == todos
    ensures Find(todos, todoId).Some? ==> Find(r, todoId) == Some(WithEdits(Find(todos, todoId).value, dto, now))
  {
    match IndexOf(todos, todoId)
    case None => todos
    case Some(i) =>
      var r := todos[i := WithEdits(todos[i], dto, now)];
      IndexOfSameKeys(todos, r, todoId);
      r
  }

  /** The store after DeleteTodo: the todo with that key is marked deleted, nothing is removed. */
  function SoftDeleted(todos: seq<Todo>, todoId: TodoId, now: Time): (r: seq<Todo>)
    ensures |r| == |todos|
    ensures forall j :: 0 <= j < |todos| ==> r[j].(deletedAt := todos[j].deletedAt) == todos[j]
    ensures forall j :: 0 <= j < |todos| && todos[j].id != todoId ==> r[j] == todos[j]
    ensures Find(todos, todoId).None? ==> r == todos
    ensures Find(todos, todoId).Some? ==> Find(r, todoId) == Some(Find(todos, todoId).value.(deletedAt := Some(now)))
  {
    match IndexOf(todos, todoId)
    case None => todos
    case Some(i) =>
      var r := todos[i := todos[i].(deletedAt := Some(now))];
      IndexOfSameKeys(todos, r, todoId);
      r
  }

  // ---------------------------------------------------------------------------
  // Listing
  // ---------------------------------------------------------------------------

  /** `Where(t => t.UserId == userId && t.DeletedAt == null)`, in store order. */
  function Visible(todos: seq<Todo>, userId: string): (r: seq<Todo>)
    ensures forall t :: t in r <==> t in todos && t.userId == userId && t.deletedAt.None?
    ensures |r| <= |todos|
  {
    if todos == [] then []
    else (if todos[0].userId == userId && todos[0].deletedAt.None? then [todos[0]] else [])
         + Visible(todos[1..], userId)
  }

  /** LINQ's Skip: drops the first n items, or all of them. */
  function Skip(s: seq<Todo>, n: int): seq<Todo>
  {
    if n <= 0 then s else if n >= |s| then [] else s[n..]
  }

  /** LINQ's Take: keeps the first n items, or all of them. */
  function Take(s: seq<Todo>, n: int): seq<Todo>
  {
    if n <= 0 then [] else if n >= |s| then s else s[..n]
  }

  // The range of C#'s 32-bit `int`.
  const Int32Min := -0x8000_0000
  const Int32Max := 0x7fff_ffff

  predicate IsInt32(x: int)
  {
    Int32Min <= x <= Int32Max
  }

  /** Unchecked `int` arithmetic: x modulo 2^32, brought into the range of `int`. */
  function Wrap32(x: int): (r: int)
    ensures IsInt32(r)
    ensures IsInt32(x) ==> r == x
    ensures (x - r) % 0x1_0000_0000 == 0
  {
    (x - Int32Min) % 0x1_0000_0000 + Int32Min
  }

  /** The last page number whose skip count does not overflow `int`. */
  const LastExactPage := Int32Max / PageSize + 1

  /** `(pageNumber - 1) * pageSize` as the handler computes it, in unchecked `int` arithmetic. */
  function SkipCount(pageNumber: int): (r: int)
    requires IsInt32(pageNumber)
    ensures IsInt32(r)
    ensures IsInt32((pageNumber - 1) * PageSize) ==> r == (pageNumber - 1) * PageSize
    ensures 1 <= pageNumber <= LastExactPage ==> r == (pageNumber - 1) * PageSize
  {
    Wrap32(Wrap32(pageNumber - 1) * PageSize)
  }

  /** `Skip(skip).Take(pageSize)` for a skip count the query accepts: the slice of the items that forms a page. */
  function Slice(items: seq<Todo>, skip: nat): (r: seq<Todo>)
    ensures |r| == if |items| <= skip then 0
                   else if |items| - skip < PageSize then |items| - skip
                   else PageSize
    ensures forall k :: 0 <= k < |r| ==> r[k] == items[skip + k]
  {
    Take(Skip(items, skip), PageSize)
  }

  /**
   * The page the query returns for a page number: None when the skip count
   * is negative, which the database refuses, and otherwise the slice there.
   * While the skip count does not overflow, page N is the slice at (N-1)*5
   * and a page number below 1 fails.
   */
  function Page(items: seq<Todo>, pageNumber: int): (r: Option<seq<Todo>>)
    requires IsInt32(pageNumber)
    ensures r.None? <==> SkipCount(pageNumber) < 0
    ensures IsInt32((pageNumber - 1) * PageSize) ==>
      (r.None? <==> pageNumber < 1) && (r.Some? ==> r.value == Slice(items, (pageNumber - 1) * PageSize))
  {
    var skip := SkipCount(pageNumber);
    if skip < 0 then None else Some(Slice(items, skip))
  }

  /**
   * GetUserTodos as its `userId == null` guard means it: Unauthorized when no
   * user is resolved for the caller; otherwise the page of that user's todos
   * that are not deleted, or a server error when the query refuses the skip
   * count. `currentUser` is the id of the user UserManager.GetUserAsync
   * resolves for the caller.
   */
  function GetUserTodos(todos: seq<Todo>, currentUser: Option<string>, pageNumber: int): (r: ActionResult)
    requires IsInt32(pageNumber)
    ensures r == Unauthorized <==> currentUser.None?
    ensures r == ServerError <==> currentUser.Some? && SkipCount(pageNumber) < 0
    ensures currentUser.Some? && SkipCount(pageNumber) >= 0 ==>
      r == OkList(Slice(Visible(todos, currentUser.value), SkipCount(pageNumber)))
    ensures r.OkList? ==> |r.items| <= PageSize
    ensures r.OkList? ==>
      forall t :: t in r.items ==> t in todos && t.userId == currentUser.value && t.deletedAt.None?
  {
    if currentUser.None? then Unauthorized
    else match Page(Visible(todos, currentUser.value), pageNumber)
      case None => ServerError
      case Some(items) => OkList(items)
  }

  /**
   * GetUserTodos as written: GetUserIdAsync throws on the null user that
   * GetUserAsync gives when no user is resolved, and the id of a resolved
   * user is never null, so the Unauthorized answer is never given.
   */
  function GetUserTodosAsWritten(todos: seq<Todo>, currentUser: Option<string>, pageNumber: int): (r: ActionResult)
    requires IsInt32(pageNumber)
    ensures r != Unauthorized
    ensures currentUser.None? ==> r == ServerError
    ensures currentUser.Some? ==> r == GetUserTodos(todos, currentUser, pageNumber)
  {
    if currentUser.None? then ServerError
    else
      var userId: Option<string> := Some(currentUser.value);
      if userId.None? then Unauthorized
      else match Page(Visible(todos, userId.value), pageNumber)
        case None => ServerError
        case Some(items) => OkList(items)
  }

  // ---------------------------------------------------------------------------
  // Endpoints that change the store
  // ---------------------------------------------------------------------------

  /** CreateTodo: appends one todo owned by the caller; Unauthorized without a caller id. */
  method CreateTodo(db: TodoDb, callerId: Option<string>, dto: TodoDto, newId: TodoId) returns (r: ActionResult)
    requires db.Valid()
    requires Find(db.todos, newId).None?
    modifies db
    ensures db.Valid()
    ensures callerId.None? ==> r == Unauthorized && db.todos == old(db.todos)
    ensures callerId.Some? ==> r == Ok(NewTodo(newId, dto, callerId.value))
                               && db.todos == old(db.todos) + [NewTodo(newId, dto, callerId.value)]
  {
    if callerId.None? {
      return Unauthorized;
    }
    var todo := NewTodo(newId, dto, callerId.value);
    forall j | 0 <= j < |db.todos| ensures db.todos[j].id != newId {
      assert db.todos[j] in db.todos;
    }
    db.todos := db.todos + [todo];
    r := Ok(todo);
  }

  /** UpdateTodo: overwrites title, body and completion and stamps the update time; NotFound for a missing key. */
  method UpdateTodo(db: TodoDb, todoId: TodoId, dto: TodoDto, now: Time) returns (r: ActionResult)
    requires db.Valid()
    modifies db
    ensures db.Valid()
    ensures db.todos == Updated(old(db.todos), todoId, dto, now)
    ensures Find(old(db.todos), todoId).None? ==> r == NotFound
    ensures Find(old(db.todos), todoId).Some? ==> r == Ok(Find(db.todos, todoId).value)
  {
    var i := IndexOf(db.todos, todoId);
    if i.None? {
      return NotFound;
    }
    var todo := db.todos[i.value];
    todo := todo.(title := dto.title);
    todo := todo.(body := dto.body);
    todo := todo.(isCompleted := dto.isCompleted);
    todo := todo.(updatedAt := Some(now));
    db.todos := db.todos[i.value := todo];
    r := Ok(todo);
  }

  /** DeleteTodo: stamps the deletion time and keeps the record; NotFound for a missing key. */
  method DeleteTodo(db: TodoDb, todoId: TodoId, now: Time) returns (r: ActionResult)
    requires db.Valid()
    modifies db
    ensures db.Valid()
    ensures db.todos == SoftDeleted(old(db.todos), todoId, now)
    ensures Find(old(db.todos), todoId).None? ==> r == NotFound
    ensures Find(old(db.todos), todoId).Some? ==> r == NoContent
  {
    var i := IndexOf(db.todos, todoId);
    if i.None? {
      return NotFound;
    }
    db.todos := db.todos[i.value := db.todos[i.value].(deletedAt := Some(now))];
    r := NoContent;
  }

  /** PUT /api/Todos/{todoId}: the ownership filter, then UpdateTodo when the filter set no result. */
  method GuardedUpdate(context: ActionExecutingContext, db: TodoDb, dto: TodoDto, now: Time) returns (r: ActionResult)
    requires db.Valid()
    requires context.result.None?
    modifies context, db
    ensures db.Valid()
    ensures var v := Authorize(context.callerId, context.actionArguments, old(db.todos));
      && (v != Allow ==> db.todos == old(db.todos) && Some(r) == DeniedResult(v))
      && (v == Allow ==>
            var todoId := TodoIdOf(context.actionArguments).value;
            db.todos == Updated(old(db.todos), todoId, dto, now) && r == Ok(Find(db.todos, todoId).value))
  {
    OnActionExecuting(context, db);
    if context.result.Some? {
      r := context.result.value;
    } else {
      var todoId := context.actionArguments[TodoIdArgument].guid;
      r := UpdateTodo(db, todoId, dto, now);
    }
  }

  /** DELETE /api/Todos/{todoId}: the ownership filter, then DeleteTodo when the filter set no result. */
  method GuardedDelete(context: ActionExecutingContext, db: TodoDb, now: Time) returns (r: ActionResult)
    requires db.Valid()
    requires context.result.None?
    modifies context, db
    ensures db.Valid()
    ensures var v := Authorize(context.callerId, context.actionArguments, old(db.todos));
      && (v != Allow ==> db.todos == old(db.todos) && Some(r) == DeniedResult(v))
      && (v == Allow ==>
            db.todos == SoftDeleted(old(db.todos), TodoIdOf(context.actionArguments).value, now) && r == NoContent)
  {
    OnActionExecuting(context, db);
    if context.result.Some? {
      r := context.result.value;
    } else {
      var todoId := context.actionArguments[TodoIdArgument].guid;
      r := DeleteTodo(db, todoId, now);
    }
  }

  // ---------------------------------------------------------------------------
  // Lemmas
  // ---------------------------------------------------------------------------

  /** Filtering a store with unique keys keeps the keys unique. */
  lemma {:induction false} VisibleKeysUnique(todos: seq<Todo>, userId: string)
    requires UniqueIds(todos)
    ensures UniqueIds(Visible(todos, userId))
  {
    if todos != [] {
      var rest := todos[1..];
      assert UniqueIds(rest) by {
        forall i, j | 0 <= i < j < |rest| ensures rest[i].id != rest[j].id {
          assert rest[i] == todos[i + 1] && rest[j] == todos[j + 1];
        }
      }
      VisibleKeysUnique(rest, userId);
      forall t | t in Visible(rest, userId) ensures t.id != todos[0].id {
        var k :| 0 <= k < |rest| && rest[k] == t;
        assert todos[k + 1] == t;
      }
    }
  }

  /** Filtering distributes over appending to the store. */
  lemma {:induction false} VisibleAppend(a: seq<Todo>, b: seq<Todo>, userId: string)
    ensures Visible(a + b, userId) == Visible(a, userId) + Visible(b, userId)
  {
    if a == [] {
      assert a + b == b;
    } else {
      assert (a + b)[1..] == a[1..] + b;
      VisibleAppend(a[1..], b, userId);
    }
  }

  /**
   * A create adds the new todo to its owner's listing and to no one else's.
   * In the model's store order it comes last.
   */
  lemma CreateAddsToOwnersListing(todos: seq<Todo>, newId: TodoId, dto: TodoDto, owner: string, userId: string)
    ensures Visible(todos + [NewTodo(newId, dto, owner)], userId)
         == Visible(todos, userId) + (if userId == owner then [NewTodo(newId, dto, owner)] else [])
  {
    VisibleAppend(todos, [NewTodo(newId, dto, owner)], userId);
    assert [NewTodo(newId, dto, owner)][1..] == [];
  }

  /** Two different pages, up to the last exact one, of items with unique keys share no todo. */
  lemma PagesDisjoint(items: seq<Todo>, p: int, q: int)
    requires UniqueIds(items)
    requires 1 <= p <= LastExactPage && 1 <= q <= LastExactPage && p != q
    ensures Page(items, p).Some? && Page(items, q).Some?
    ensures forall t :: t in Page(items, p).value ==> t !in Page(items, q).value
  {
  }

  /** Every item before the overflow bound lies on page k / 5 + 1, at position k % 5. */
  lemma ItemOnItsPage(items: seq<Todo>, k: int)
    requires 0 <= k < |items| && k < LastExactPage * PageSize
    ensures Page(items, k / PageSize + 1).Some?
    ensures k % PageSize < |Page(items, k / PageSize + 1).value|
    ensures Page(items, k / PageSize + 1).value[k % PageSize] == items[k]
  {
  }

  /** Every live todo of the caller before the overflow bound is listed: the k-th on page k / 5 + 1. */
  lemma ListedOnItsPage(todos: seq<Todo>, userId: string, k: int)
    requires 0 <= k < |Visible(todos, userId)| && k < LastExactPage * PageSize
    ensures GetUserTodos(todos, Some(userId), k / PageSize + 1).OkList?
    ensures k % PageSize < |GetUserTodos(todos, Some(userId), k / PageSize + 1).items|
    ensures GetUserTodos(todos, Some(userId), k / PageSize + 1).items[k % PageSize] == Visible(todos, userId)[k]
  {
  }

  /** Two different pages, up to the last exact one, of one user's listing share no todo. */
  lemma ListedPagesDisjoint(todos: seq<Todo>, userId: string, p: int, q: int)
    requires UniqueIds(todos)
    requires 1 <= p <= LastExactPage && 1 <= q <= LastExactPage && p != q
    ensures GetUserTodos(todos, Some(userId), p).OkList? && GetUserTodos(todos, Some(userId), q).OkList?
    ensures forall t :: t in GetUserTodos(todos, Some(userId), p).items ==> t !in GetUserTodos(todos, Some(userId), q).items
  {
    VisibleKeysUnique(todos, userId);
    PagesDisjoint(Visible(todos, userId), p, q);
  }

  /**
   * Past the last exact page the skip count wraps around: the next page
   * number gives a negative skip count and fails, and page 858993461 skips
   * only 4 items, so it shares item 4 with page 1.
   */
  lemma SkipCountWrapsAround(items: seq<Todo>)
    ensures SkipCount(LastExactPage + 1) < 0 && Page(items, LastExactPage + 1).None?
    ensures SkipCount(858993461) == 4
    ensures 5 <= |items| ==> items[4] in Page(items, 1).value && items[4] in Page(items, 858993461).value
  {
  }

  /** After a soft delete the todo is listed for no one, yet it is still found by its key. */
  lemma DeletedTodoNotListed(todos: seq<Todo>, todoId: TodoId, now: Time, userId: string)
    requires UniqueIds(todos)
    ensures forall t :: t in Visible(SoftDeleted(todos, todoId, now), userId) ==> t.id != todoId
    ensures Find(SoftDeleted(todos, todoId, now), todoId).Some? == Find(todos, todoId).Some?
  {
  }

  /** The filter ignores soft deletion: whoever may act on a todo still may once it is deleted. */
  lemma GuardIgnoresSoftDelete(callerId: Option<string>, arguments: map<string, ActionArgument>,
                               todos: seq<Todo>, deletedId: TodoId, now: Time)
    ensures Authorize(callerId, arguments, SoftDeleted(todos, deletedId, now)) == Authorize(callerId, arguments, todos)
  {
  }

  /**
   * What the filter lets through changes only the caller's own todo: every
   * todo that an allowed update or delete alters is owned by the caller.
   */
  lemma AllowedChangesOnlyCallersTodo(callerId: Option<string>, arguments: map<string, ActionArgument>,
                                      todos: seq<Todo>, dto: TodoDto, now: Time)
    requires UniqueIds(todos)
    requires Authorize(callerId, arguments, todos) == Allow
    ensures forall j :: 0 <= j < |todos| && Updated(todos, TodoIdOf(arguments).value, dto, now)[j] != todos[j] ==>
      todos[j].userId == callerId.value
    ensures forall j :: 0 <= j < |todos| && SoftDeleted(todos, TodoIdOf(arguments).value, now)[j] != todos[j] ==>
      todos[j].userId == callerId.value
  {
  }

  /**
   * A caller who does not own the todo (someone else does) is refused by the
   * filter, so neither update nor delete reaches the store.
   */
  lemma NonOwnerRefused(callerId: string, arguments: map<string, ActionArgument>, todos: seq<Todo>, j: int)
    requires UniqueIds(todos)
    requires TodoIdOf(arguments).Some?
    requires 0 <= j < |todos| && todos[j].id == TodoIdOf(arguments).value && todos[j].userId != callerId
    ensures Authorize(Some(callerId), arguments, todos) == DenyUnauthorized
  {
  }

  /** Without a resolved user the handler as written fails where it means to answer Unauthorized. */
  lemma ListWithoutUserFails(todos: seq<Todo>)
    ensures GetUserTodosAsWritten(todos, None, 1) == ServerError
    ensures GetUserTodos(todos, None, 1) == Unauthorized
  {
  }

  /**
   * A run of the endpoints: user A creates a todo; user B can neither update
   * nor delete it and the store stays as it was; A then updates it.
   */
  method CrossUserScenario(dto: TodoDto, edit: TodoDto, now: Time)
  {
    var db := new TodoDb();
    var created := CreateTodo(db, Some("A"), dto, 7);
    assert created == Ok(NewTodo(7, dto, "A"));
    var before := db.todos;

    var asB := new ActionExecutingContext(Some("B"), map[TodoIdArgument := GuidArgument(7)]);
    var put := GuardedUpdate(asB, db, edit, now);
    assert put == Unauthorized && db.todos == before;

    var asB2 := new ActionExecutingContext(Some("B"), map[TodoIdArgument := GuidArgument(7)]);
    var del := GuardedDelete(asB2, db, now);
    assert del == Unauthorized && db.todos == before;

    var asA := new ActionExecutingContext(Some("A"), map[TodoIdArgument := GuidArgument(7)]);
    var own := GuardedUpdate(asA, db, edit, now);
    assert own == Ok(WithEdits(NewTodo(7, dto, "A"), edit, now));
  }
}
