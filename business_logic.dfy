/** The to-do service: builds new items and forwards every other use case to
    the data layer. The store, a single module-level adapter in the service,
    is passed in; the fresh id and the creation time, drawn from a UUID
    generator and the clock when an item is created, are arguments. */
module BusinessLogic {
  import opened Model
  import opened DataLayer

  /** The item a create request turns into. */
  function NewTodoItem(req: CreateTodoRequest, userId: string, todoId: string, createdAt: string): (item: TodoItem)
    ensures item.userId == userId && item.todoId == todoId && item.createdAt == createdAt
    ensures item.name == req.name && item.dueDate == req.dueDate
    ensures !item.done && item.attachmentUrl.None?
  {
    TodoItem(userId, todoId, createdAt, req.name, req.dueDate, false, None)
  }

  /** All items of `userId`, as the store lists them. */
  method GetTodos(store: TodosAccess, userId: string) returns (items: seq<TodoItem>)
    requires store.Valid()
    ensures forall it :: it in items ==> it.userId == userId
    ensures forall it :: it in items <==> it in Owned(store.table, userId)
  {
    items := store.GetTodosForUser(userId);
  }

  /** A paged listing issues the store's query with the caller's arguments unchanged. */
  function GetTodosForUser(store: TodosAccess, userId: string, nextKey: Option<string>, limit: int, orderBy: string): (q: Query)
    ensures q == store.GetTodosQuery(userId, nextKey, limit, orderBy)
  {
    store.GetTodosQuery(userId, nextKey, limit, orderBy)
  }

  method UpdateTodo(store: TodosAccess, userId: string, todoId: string, payload: UpdateTodoRequest)
    requires store.Valid()
    modifies store
    ensures store.Valid()
    ensures store.table == Updated(old(store.table), userId, todoId, payload)
  {
    store.UpdateTodo(userId, todoId, payload);
  }

  method UpdateTodoAttachment(store: TodosAccess, userId: string, todoId: string)
    requires store.Valid()
    modifies store
    ensures store.Valid()
    ensures store.table == Attached(old(store.table), store.attachmentBucket, userId, todoId)
  {
    store.UpdateTodoAttachment(userId, todoId);
  }

  method DeleteTodo(store: TodosAccess, userId: string, todoId: string)
    requires store.Valid()
    modifies store
    ensures store.Valid()
    ensures store.table == Removed(old(store.table), userId, todoId)
  {
    store.DeleteTodo(userId, todoId);
  }

  /** Creates the item for `userId` with the fresh id and timestamp and returns
      what the store hands back. */
  method CreateTodo(store: TodosAccess, req: CreateTodoRequest, userId: string, todoId: string, createdAt: string)
    returns (item: TodoItem)
    requires store.Valid()
    modifies store
    ensures store.Valid()
    ensures item == NewTodoItem(req, userId, todoId, createdAt)
    ensures store.table == Put(old(store.table), item)
  {
    item := store.CreateTodo(NewTodoItem(req, userId, todoId, createdAt));
  }

  /** A created item is listed for its owner, and for nobody else. */
  lemma CreatedItemListed(t: Table, req: CreateTodoRequest, userId: string, todoId: string, createdAt: string, other: string)
    requires WellKeyed(t) && other != userId
    ensures NewTodoItem(req, userId, todoId, createdAt) in Owned(Put(t, NewTodoItem(req, userId, todoId, createdAt)), userId)
    ensures Owned(Put(t, NewTodoItem(req, userId, todoId, createdAt)), other) == Owned(t, other)
  {
    var item := NewTodoItem(req, userId, todoId, createdAt);
    var r := Put(t, item);
    assert KeyOf(item) in r && KeyOf(item).userId == userId;
    assert OthersUnchanged(t, r, userId);
    assert Owned(r, other) == Owned(t, other) by {
      forall it | it in Owned(r, other) ensures it in Owned(t, other) {
        var k :| k in r && k.userId == other && r[k] == it;
        assert k in t && t[k] == it;
      }
      forall it | it in Owned(t, other) ensures it in Owned(r, other) {
        var k :| k in t && k.userId == other && t[k] == it;
        assert k in r && r[k] == it;
      }
    }
  }

  /** After an update of an existing item, its owner's listing shows the new
      name, due date and completion flag (full replacement of the three fields). */
  lemma UpdateVisibleInListing(t: Table, userId: string, todoId: string, req: UpdateTodoRequest)
    requires WellKeyed(t) && Key(userId, todoId) in t
    ensures exists it :: it in Owned(Updated(t, userId, todoId, req), userId)
              && it.todoId == todoId && it.name == req.name && it.dueDate == req.dueDate && it.done == req.done
  {
    var r := Updated(t, userId, todoId, req);
    var k := Key(userId, todoId);
    assert k in r && r[k] in Owned(r, userId);
  }

  /** A use case a signed-in user can run against the store. */
  datatype Request =
    | Create(req: CreateTodoRequest, todoId: string, createdAt: string)
    | Update(todoId: string, payload: UpdateTodoRequest)
    | Attach(todoId: string)
    | Delete(todoId: string)

  /** The table after `userId` runs `r`. */
  function Apply(t: Table, bucket: string, userId: string, r: Request): (u: Table)
    ensures OthersUnchanged(t, u, userId)
    ensures WellKeyed(t) ==> WellKeyed(u)
  {
    match r
    case Create(req, id, now) => Put(t, NewTodoItem(req, userId, id, now))
    case Update(id, payload) => Updated(t, userId, id, payload)
    case Attach(id) => Attached(t, bucket, userId, id)
    case Delete(id) => Removed(t, userId, id)
  }

  function ApplyAll(t: Table, bucket: string, userId: string, rs: seq<Request>): Table
    decreases |rs|
  {
    if |rs| == 0 then t else ApplyAll(Apply(t, bucket, userId, rs[0]), bucket, userId, rs[1..])
  }

  /** However many use cases a user runs, no other user's items change. */
  lemma {:induction false} ApplyAllScoped(t: Table, bucket: string, userId: string, rs: seq<Request>)
    ensures OthersUnchanged(t, ApplyAll(t, bucket, userId, rs), userId)
    ensures WellKeyed(t) ==> WellKeyed(ApplyAll(t, bucket, userId, rs))
    decreases |rs|
  {
    if |rs| > 0 {
      ApplyAllScoped(Apply(t, bucket, userId, rs[0]), bucket, userId, rs[1..]);
    }
  }

  /** Deleting twice leaves the table as deleting once: the second delete of a
      missing item succeeds and changes nothing. */
  lemma DeleteTwiceIsDeleteOnce(t: Table, bucket: string, userId: string, todoId: string)
    ensures ApplyAll(t, bucket, userId, [Delete(todoId), Delete(todoId)]) == Apply(t, bucket, userId, Delete(todoId))
  {
    var once := Apply(t, bucket, userId, Delete(todoId));
    assert [Delete(todoId), Delete(todoId)][1..] == [Delete(todoId)];
    assert ApplyAll(once, bucket, userId, [Delete(todoId)]) == Apply(once, bucket, userId, Delete(todoId));
    RemovedIdempotent(t, userId, todoId);
  }
}
