/** The document-store adapter: the to-do table, keyed by (userId, todoId).

    The table is a map from keys to items. The store's client, its
    configuration and its transport are not modelled: the table name, the two
    index names and the attachment bucket are constructor arguments. An update
    of a key that holds no item leaves the table as it is (the store call has
    no condition, and what the store then does is not visible here). */
module DataLayer {
  import opened Model

  type Table = map<Key, TodoItem>

  /** Every entry sits at the key formed by its own userId and todoId. */
  ghost predicate WellKeyed(t: Table) {
    forall k :: k in t ==> KeyOf(t[k]) == k
  }

  /** `t` and `u` hold the same entries at every key other than `key`. */
  ghost predicate SameExcept(t: Table, u: Table, key: Key) {
    forall k :: k != key ==> (k in t <==> k in u) && (k in t ==> t[k] == u[k])
  }

  /** `t` and `u` hold the same entries at every key of a user other than `userId`. */
  ghost predicate OthersUnchanged(t: Table, u: Table, userId: string) {
    forall k: Key :: k.userId != userId ==> (k in t <==> k in u) && (k in t ==> t[k] == u[k])
  }

  /** The items of the table owned by `userId`. */
  ghost function Owned(t: Table, userId: string): set<TodoItem> {
    set k | k in t && k.userId == userId :: t[k]
  }

  /** A change confined to one key of `userId` leaves every other user's entries alone. */
  lemma SameExceptScoped(t: Table, u: Table, userId: string, todoId: string)
    requires SameExcept(t, u, Key(userId, todoId))
    ensures OthersUnchanged(t, u, userId)
  {
  }

  /** The URL recorded for an uploaded attachment: the bucket's public address
      followed by the todo id. */
  function AttachmentUrl(bucket: string, todoId: string): (url: string)
    ensures |url| == |"https://"| + |bucket| + |".s3.amazonaws.com/"| + |todoId|
    ensures url[..|"https://"|] == "https://"
    ensures url[|"https://"|..|"https://"| + |bucket|] == bucket
    ensures url[|url| - |todoId|..] == todoId
  {
    "https://" + bucket + ".s3.amazonaws.com/" + todoId
  }

  /** Within one bucket, distinct todos get distinct attachment URLs. */
  lemma AttachmentUrlInjective(bucket: string, a: string, b: string)
    requires AttachmentUrl(bucket, a) == AttachmentUrl(bucket, b)
    ensures a == b
  {
    var url := AttachmentUrl(bucket, a);
    assert |a| == |b|;
    assert a == url[|url| - |a|..] == b;
  }

  /** Putting an item stores it at its own key; the rest of the table is untouched. */
  function Put(t: Table, item: TodoItem): (r: Table)
    ensures KeyOf(item) in r && r[KeyOf(item)] == item
    ensures SameExcept(t, r, KeyOf(item))
    ensures WellKeyed(t) ==> WellKeyed(r)
  {
    t[KeyOf(item) := item]
  }

  /** Deleting removes the one key, whether or not an item is there. */
  function Removed(t: Table, userId: string, todoId: string): (r: Table)
    ensures Key(userId, todoId) !in r
    ensures SameExcept(t, r, Key(userId, todoId))
    ensures Key(userId, todoId) !in t ==> r == t
    ensures WellKeyed(t) ==> WellKeyed(r)
  {
    t - {Key(userId, todoId)}
  }

  /** Updating replaces name, done and dueDate of the item at the key and keeps
      its other fields; with no item at the key nothing changes. */
  function Updated(t: Table, userId: string, todoId: string, req: UpdateTodoRequest): (r: Table)
    ensures SameExcept(t, r, Key(userId, todoId))
    ensures Key(userId, todoId) !in t ==> r == t
    ensures Key(userId, todoId) in t ==> Key(userId, todoId) in r
    ensures Key(userId, todoId) in t ==>
              var (before, after) := (t[Key(userId, todoId)], r[Key(userId, todoId)]);
              && after.name == req.name && after.done == req.done && after.dueDate == req.dueDate
              && after.userId == before.userId && after.todoId == before.todoId
              && after.createdAt == before.createdAt && after.attachmentUrl == before.attachmentUrl
    ensures WellKeyed(t) ==> WellKeyed(r)
  {
    var k := Key(userId, todoId);
    if k in t then t[k := t[k].(name := req.name, done := req.done, dueDate := req.dueDate)] else t
  }

  /** Recording an attachment sets the URL of the item at the key and keeps its
      other fields; with no item at the key nothing changes. */
  function Attached(t: Table, bucket: string, userId: string, todoId: string): (r: Table)
    ensures SameExcept(t, r, Key(userId, todoId))
    ensures Key(userId, todoId) !in t ==> r == t
    ensures Key(userId, todoId) in t ==>
              && Key(userId, todoId) in r
              && r[Key(userId, todoId)].attachmentUrl == Some(AttachmentUrl(bucket, todoId))
              && r[Key(userId, todoId)].(attachmentUrl := t[Key(userId, todoId)].attachmentUrl)
                 == t[Key(userId, todoId)]
    ensures WellKeyed(t) ==> WellKeyed(r)
  {
    var k := Key(userId, todoId);
    if k in t then t[k := t[k].(attachmentUrl := Some(AttachmentUrl(bucket, todoId)))] else t
  }

  lemma RemovedIdempotent(t: Table, userId: string, todoId: string)
    ensures Removed(Removed(t, userId, todoId), userId, todoId) == Removed(t, userId, todoId)
  {
  }

  lemma AttachedIdempotent(t: Table, bucket: string, userId: string, todoId: string)
    ensures Attached(Attached(t, bucket, userId, todoId), bucket, userId, todoId)
            == Attached(t, bucket, userId, todoId)
  {
  }

  lemma UpdatedIdempotent(t: Table, userId: string, todoId: string, req: UpdateTodoRequest)
    ensures Updated(Updated(t, userId, todoId, req), userId, todoId, req) == Updated(t, userId, todoId, req)
  {
  }

  /** A paged query as the adapter issues it. */
  datatype Query = Query(
    tableName: string,
    indexName: string,
    userId: string,
    limit: int,
    scanIndexForward: bool,
    exclusiveStartKey: Option<string>)

  class TodosAccess {
    const todoTable: string
    const createdAtIndex: string
    const dueDateIndex: string
    const attachmentBucket: string
    var table: Table

    ghost predicate Valid()
      reads this
    {
      WellKeyed(table)
    }

    constructor (todoTable: string, createdAtIndex: string, dueDateIndex: string,
                 attachmentBucket: string, initial: Table)
      requires WellKeyed(initial)
      ensures Valid() && table == initial
      ensures this.todoTable == todoTable && this.attachmentBucket == attachmentBucket
      ensures this.createdAtIndex == createdAtIndex && this.dueDateIndex == dueDateIndex
    {
      this.todoTable := todoTable;
      this.createdAtIndex := createdAtIndex;
      this.dueDateIndex := dueDateIndex;
      this.attachmentBucket := attachmentBucket;
      table := initial;
    }

    /** Every item of `userId`, each once. The loop stands for the store walking
        the user's partition; the order it picks is the store's and is not
        modelled. */
    method GetTodosForUser(userId: string) returns (items: seq<TodoItem>)
      requires Valid()
      ensures forall it :: it in items ==> it.userId == userId
      ensures forall it :: it in items <==> it in Owned(table, userId)
      ensures forall i, j :: 0 <= i < j < |items| ==> KeyOf(items[i]) != KeyOf(items[j])
    {
      items := [];
      var rest := table.Keys;
      while rest != {}
        invariant rest <= table.Keys
        invariant forall it :: it in items ==>
                    it.userId == userId && KeyOf(it) in table && table[KeyOf(it)] == it && KeyOf(it) !in rest
        invariant forall k :: k in table && k !in rest && k.userId == userId ==> table[k] in items
        invariant forall i, j :: 0 <= i < j < |items| ==> KeyOf(items[i]) != KeyOf(items[j])
        decreases rest
      {
        var k :| k in rest;
        if k.userId == userId {
          items := items + [table[k]];
        }
        rest := rest - {k};
      }
    }

    /** The index a paged listing reads: the due-date index exactly when the
        caller orders by "dueDate", the created-at index otherwise. */
    function IndexFor(orderBy: string): (indexName: string)
      ensures indexName == dueDateIndex || indexName == createdAtIndex
      ensures createdAtIndex != dueDateIndex ==> (indexName == dueDateIndex <==> orderBy == "dueDate")
    {
      if orderBy == "dueDate" then dueDateIndex else createdAtIndex
    }

    /** The query of a paged listing: scoped to `userId`, on the chosen index,
        newest first, with the caller's page size and resume key. */
    function GetTodosQuery(userId: string, nextKey: Option<string>, limit: int, orderBy: string): (q: Query)
      ensures q.userId == userId && q.tableName == todoTable
      ensures q.indexName == IndexFor(orderBy)
      ensures q.limit == limit && q.exclusiveStartKey == nextKey && !q.scanIndexForward
    {
      Query(todoTable, IndexFor(orderBy), userId, limit, false, nextKey)
    }

    /** Puts `todo` (overwriting any item at its key) and hands it back. */
    method CreateTodo(todo: TodoItem) returns (r: TodoItem)
      requires Valid()
      modifies this
      ensures Valid() && r == todo
      ensures table == Put(old(table), todo)
    {
      table := table[KeyOf(todo) := todo];
      r := todo;
    }

    method DeleteTodo(userId: string, todoId: string)
      requires Valid()
      modifies this
      ensures Valid()
      ensures table == Removed(old(table), userId, todoId)
    {
      table := table - {Key(userId, todoId)};
    }

    method UpdateTodo(userId: string, todoId: string, todo: UpdateTodoRequest)
      requires Valid()
      modifies this
      ensures Valid()
      ensures table == Updated(old(table), userId, todoId, todo)
    {
      var k := Key(userId, todoId);
      if k in table {
        table := table[k := table[k].(name := todo.name, done := todo.done, dueDate := todo.dueDate)];
      }
    }

    method UpdateTodoAttachment(userId: string, todoId: string)
      requires Valid()
      modifies this
      ensures Valid()
      ensures table == Attached(old(table), attachmentBucket, userId, todoId)
    {
      var k := Key(userId, todoId);
      if k in table {
        var url := "https://" + attachmentBucket + ".s3.amazonaws.com/" + todoId;
        table := table[k := table[k].(attachmentUrl := Some(url))];
      }
    }
  }
}
