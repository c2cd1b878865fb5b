/** The HTTP handler that lists a user's todos one page at a time.

    The handler reads three query parameters through parsers that may fail
    (they are not part of this model: each parser's outcome is an argument),
    falls back to defaults for a missing page size and sort order, answers 400
    when any parser fails, and otherwise calls the service once and answers 200
    with the page the service returned. The caller's identity, extracted from
    the request by a collaborator, is the `userId` argument; the service's
    reply is the `reply` argument. Bodies are kept as structured values rather
    than JSON text. */
module GetTodosHandler {
  import opened Model
  import DataLayer
  import BusinessLogic

  /** What a parser produced: a value (possibly absent) or a failure. */
  datatype Parsed<+T> = Parsed(value: T) | ParseFailed

  /** The service call the handler makes. */
  datatype ListCall = ListCall(userId: string, nextKey: Option<string>, limit: int, orderBy: string)

  datatype Body = ErrorBody(error: string) | PageBody(items: seq<TodoItem>, nextKey: Option<string>)

  datatype Response = Response(statusCode: int, body: Body)

  /** The call made (if any) and the response sent. */
  datatype Outcome = Outcome(call: Option<ListCall>, response: Response)

  const DefaultLimit := 10
  const StatusOk := 200
  const StatusBadRequest := 400
  const InvalidParams := "Invalid params"

  /** The page size: the parsed one when it is truthy, 10 when it is absent or 0. */
  function LimitOrDefault(parsed: Option<int>): (limit: int)
    ensures parsed.Some? && parsed.value != 0 ==> limit == parsed.value
    ensures parsed.None? || parsed.value == 0 ==> limit == DefaultLimit
    ensures limit != 0
  {
    if parsed.Some? && parsed.value != 0 then parsed.value else DefaultLimit
  }

  /** The sort order: the parsed one, or the empty string when it is absent (an
      empty parsed value falls back to the same empty string). */
  function OrderByOrDefault(parsed: Option<string>): (orderBy: string)
    ensures parsed.Some? ==> orderBy == parsed.value
    ensures parsed.None? ==> orderBy == ""
  {
    if parsed.Some? && parsed.value != "" then parsed.value else ""
  }

  function Handle(userId: string, nextKey: Parsed<Option<string>>, limit: Parsed<Option<int>>,
                  orderBy: Parsed<Option<string>>, reply: TodoPage): (o: Outcome)
    ensures o.response.statusCode == StatusBadRequest
            <==> nextKey.ParseFailed? || limit.ParseFailed? || orderBy.ParseFailed?
    ensures o.response.statusCode == StatusBadRequest ==>
              o.call.None? && o.response.body == ErrorBody(InvalidParams)
    ensures o.response.statusCode != StatusBadRequest ==>
              && o.response == Response(StatusOk, PageBody(reply.items, reply.nextKey))
              && o.call == Some(ListCall(userId, nextKey.value, LimitOrDefault(limit.value),
                                         OrderByOrDefault(orderBy.value)))
  {
    if nextKey.ParseFailed? || limit.ParseFailed? || orderBy.ParseFailed? then
      Outcome(None, Response(StatusBadRequest, ErrorBody(InvalidParams)))
    else
      var call := ListCall(userId, nextKey.value, LimitOrDefault(limit.value), OrderByOrDefault(orderBy.value));
      Outcome(Some(call), Response(StatusOk, PageBody(reply.items, reply.nextKey)))
  }

  /** What the store is asked when the handler's call reaches it: a query scoped
      to the caller, of 10 items when no page size was given, on the due-date
      index exactly when the caller ordered by "dueDate". */
  lemma HandledQuery(store: DataLayer.TodosAccess, userId: string, nextKey: Option<string>,
                     limit: Option<int>, orderBy: Option<string>, reply: TodoPage)
    requires store.createdAtIndex != store.dueDateIndex
    ensures var o := Handle(userId, Parsed(nextKey), Parsed(limit), Parsed(orderBy), reply);
            && o.call.Some?
            && var q := BusinessLogic.GetTodosForUser(store, o.call.value.userId, o.call.value.nextKey,
                                                      o.call.value.limit, o.call.value.orderBy);
            && q.userId == userId
            && q.exclusiveStartKey == nextKey
            && (limit.None? ==> q.limit == DefaultLimit)
            && (q.indexName == store.dueDateIndex <==> orderBy == Some("dueDate"))
  {
  }
}
