/**
 * The ownership filter that runs before the update and delete endpoints: it
 * lets the action run only when the caller owns the todo named by the
 * `todoId` argument, and otherwise sets the result the request ends with.
 */
module LoggedInUserAttribute {
  import opened Wrappers
  import opened TodoData

  const TodoIdArgument := "todoId"

  /** A bound action argument: a Guid, or a value of some other type. */
  datatype ActionArgument = GuidArgument(guid: TodoId) | OtherArgument

  datatype Verdict = Allow | DenyUnauthorized | DenyBadRequest

  /**
   * The filter's view of a request: the caller's NameIdentifier claim, the
   * bound action arguments, and the result it may set.
   */
  class ActionExecutingContext {
    const callerId: Option<string>
    const actionArguments: map<string, ActionArgument>
    var result: Option<ActionResult>

    constructor (callerId: Option<string>, actionArguments: map<string, ActionArgument>)
      ensures this.callerId == callerId && this.actionArguments == actionArguments
      ensures result == None
    {
      this.callerId := callerId;
      this.actionArguments := actionArguments;
      result := None;
    }
  }

  /** The `todoId` argument, when it is present and a Guid. */
  function TodoIdOf(arguments: map<string, ActionArgument>): (r: Option<TodoId>)
    ensures r.Some? <==> TodoIdArgument in arguments && arguments[TodoIdArgument].GuidArgument?
    ensures r.Some? ==> arguments[TodoIdArgument] == GuidArgument(r.value)
  {
    if TodoIdArgument in arguments && arguments[TodoIdArgument].GuidArgument?
    then Some(arguments[TodoIdArgument].guid)
    else None
  }

  /** What the filter decides for a caller, the action arguments and the store. */
  function Authorize(callerId: Option<string>, arguments: map<string, ActionArgument>, todos: seq<Todo>): (v: Verdict)
    ensures callerId.None? ==> v == DenyUnauthorized
    ensures v == DenyBadRequest <==> callerId.Some? && TodoIdOf(arguments).None?
    ensures v == Allow ==> callerId.Some? && TodoIdOf(arguments).Some?
    ensures v == Allow ==> exists t :: t in todos && t.id == TodoIdOf(arguments).value && t.userId == callerId.value
    ensures callerId.Some? && TodoIdOf(arguments).Some? && Find(todos, TodoIdOf(arguments).value).None? ==>
      v == DenyUnauthorized
  {
    if callerId.None? then DenyUnauthorized
    else match TodoIdOf(arguments)
      case None => DenyBadRequest
      case Some(todoId) =>
        match Find(todos, todoId)
        case None => DenyUnauthorized
        case Some(todo) => if todo.userId != callerId.value then DenyUnauthorized else Allow
  }

  /** The result a verdict sets on the context; an allowed action leaves it unset. */
  function DeniedResult(v: Verdict): Option<ActionResult>
  {
    match v
    case Allow => None
    case DenyUnauthorized => Some(Unauthorized)
    case DenyBadRequest => Some(BadRequest)
  }

  /**
   * OnActionExecuting: reads the store and sets `context.result` when the
   * caller may not act on the todo. The store is not in the frame, so it is
   * left as it was.
   */
  method OnActionExecuting(context: ActionExecutingContext, db: TodoDb)
    modifies context
    ensures var v := Authorize(context.callerId, context.actionArguments, db.todos);
      context.result == if v == Allow then old(context.result) else DeniedResult(v)
  {
    var userId := context.callerId;
    if userId.None? {
      context.result := Some(Unauthorized);
      return;
    }
    if TodoIdArgument in context.actionArguments && context.actionArguments[TodoIdArgument].GuidArgument? {
      var todoId := context.actionArguments[TodoIdArgument].guid;
      var todo := Find(db.todos, todoId);
      if todo.None? || todo.value.userId != userId.value {
        context.result := Some(Unauthorized);
      }
    } else {
      context.result := Some(BadRequest);
    }
  }

  /**
   * In a store with unique keys the filter allows exactly the owner of an
   * existing todo: a missing todo and someone else's todo are refused alike.
   */
  lemma AllowsExactlyTheOwner(callerId: Option<string>, arguments: map<string, ActionArgument>, todos: seq<Todo>)
    requires UniqueIds(todos)
    ensures Authorize(callerId, arguments, todos) == Allow <==>
      && callerId.Some?
      && TodoIdOf(arguments).Some?
      && exists j :: 0 <= j < |todos| && todos[j].id == TodoIdOf(arguments).value && todos[j].userId == callerId.value
  {
  }
}
