/** Types shared by the client page, the data layer, the business logic and the
    list handler of the to-do application. */
module Model {

  /** A value that may be absent (`undefined` in TypeScript). */
  datatype Option<+T> = None | Some(value: T) {
    /** The value, or `default` when it is absent (TypeScript's `x ?? default`). */
    function GetOr(default: T): T {
      match this
      case Some(v) => v
      case None => default
    }
  }

  /** A stored to-do item; `attachmentUrl` is absent until an upload is recorded. */
  datatype TodoItem = TodoItem(
    userId: string,
    todoId: string,
    createdAt: string,
    name: string,
    dueDate: string,
    done: bool,
    attachmentUrl: Option<string>)

  /** Body of a create request. */
  datatype CreateTodoRequest = CreateTodoRequest(name: string, dueDate: string)

  /** Body of an update request: the three mutable fields, replaced as a whole. */
  datatype UpdateTodoRequest = UpdateTodoRequest(name: string, dueDate: string, done: bool)

  /** One page of a listing: the items and an opaque resume key, absent on the last page. */
  datatype TodoPage = TodoPage(items: seq<TodoItem>, nextKey: Option<string>)

  /** The key of the to-do table: the pair (userId, todoId). */
  datatype Key = Key(userId: string, todoId: string)

  function KeyOf(item: TodoItem): (k: Key)
    ensures k.userId == item.userId && k.todoId == item.todoId
  {
    Key(item.userId, item.todoId)
  }
}
