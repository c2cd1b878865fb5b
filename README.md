# Serverless to-do list: paging client and store adapter

This project models the core of a serverless to-do application.
Users keep to-do items in a document store keyed by `(userId, todoId)`.
HTTP handlers reach the store through a thin service layer.
A browser page lists the items one page at a time.
There are five modules:

- `TodosPage` (todos_page.dfy) is the list page's state machine.
  It holds the todos on show, the parameters of the next list request (a resume key and a page size) and a stack of the resume keys of the pages visited so far.
  Pure functions on a `PageView` snapshot specify every handler.
  The class `Todos` performs the handlers on its fields.
  A fetch starts only when the loading flag turns from down to up, and it sends the parameters of that moment. The state records that request as `inFlight` until its reply arrives.
  Each handler is one atomic step, and `GetTodos`, the arrival of the reply, is another.
- `DataLayer` (todos_access.dfy) is the store adapter.
  Its table is a `map<Key, TodoItem>`.
  Pure functions give the effect of create, delete, update and attach on the table.
  The class `TodosAccess` performs them, and it also lists one user's items and builds the paged query.
- `BusinessLogic` (business_logic.dfy) builds the record for a new item.
  Every other operation forwards to the adapter.
  The store, the fresh id from the UUID generator and the creation time from the clock are arguments.
- `GetTodosHandler` (get_todos_handler.dfy) is the paged-list HTTP handler.
  It applies the parameter defaults, answers 400 when a parse fails, and otherwise shapes the 200 response.
- `Model` (model.dfy) holds the shared types.

The main results:

- Next, any fetched page, then Previous restores the stack of resume keys. Previous then requests the page whose key is again on top of that stack.
- Walking forward k pages and back k pages restores the stack, whatever pages arrive.
- Across any sequence of user actions and fetch arrivals, exactly one reply is awaited while the page is loading, and none otherwise.
- The awaited request need not match the stack: paging, a new page size or a create while a page loads changes the stack but starts no fetch (see "## Findings"). If those controls were disabled during a load, every awaited request would resume from the key on top of the stack.
- Each store mutation changes one key and no other. A run of use cases issued by one user never changes another user's entries.
- Delete, update and attach are idempotent.

The paged-list handler replaces a missing page size with 10. Because it tests the parsed value for truthiness, a parsed page size of 0 also becomes 10.

## Model

| member | source | states |
|---|---|---|
| TodosPage.Initial | course-04/project/c4-final-project-starter-code/client/src/components/Todos.tsx:46-53 | The page starts with no todos, an empty name, an empty key stack and request parameters (empty key, page size 3). It is loading, and the first page is the awaited request (componentDidMount, lines 155-157). |
| TodosPage.Top | course-04/project/c4-final-project-starter-code/client/src/components/Todos.tsx:122 | The top of a non-empty stack is its last key: popping it and pushing the top back gives the stack again. An empty stack has the empty key on top. |
| TodosPage.PreviousEnabled | course-04/project/c4-final-project-starter-code/client/src/components/Todos.tsx:187 | The Previous button is enabled exactly when popping the stack would change it, that is when an earlier page was visited. |
| TodosPage.NextEnabled | course-04/project/c4-final-project-starter-code/client/src/components/Todos.tsx:194 | The Next button is enabled exactly when Next would push a non-empty resume key onto the stack. |
| TodosPage.Pop | course-04/project/c4-final-project-starter-code/client/src/components/Todos.tsx:118 | Popping drops the last key of a non-empty stack and leaves a prefix; an empty stack stays empty. |
| TodosPage.AfterNext | course-04/project/c4-final-project-starter-code/client/src/components/Todos.tsx:112-115 | Next grows the stack by one, keeps its earlier entries and appends the current resume key. Parameters, todos and name stay as they were, and Previous becomes enabled. When nothing was loading, a fetch of the current parameters starts, and its key is the new stack top. When a page was already loading, the awaited request is unchanged. |
| TodosPage.AfterPrevious | course-04/project/c4-final-project-starter-code/client/src/components/Todos.tsx:117-125 | Previous removes the stack's last key, and the resume key becomes the new last key, or empty when the stack is now empty. The limit, todos and name are unchanged and loading is on. A fetch of the new parameters starts only when nothing was loading; otherwise the awaited request is unchanged. |
| TodosPage.AfterChangeLimit | course-04/project/c4-final-project-starter-code/client/src/components/Todos.tsx:127-137 | A new page size sets the limit, empties the stack and clears the resume key, which disables both buttons; the todos are kept. A fetch of the first page of the new size starts only when nothing was loading; otherwise the awaited request is unchanged. |
| TodosPage.AfterCreate | course-04/project/c4-final-project-starter-code/client/src/components/Todos.tsx:63-82 | After a successful create the stack is emptied, the resume key is cleared, the limit kept and the typed name cleared, and both buttons are disabled. A fetch of the first page starts only when nothing was loading; otherwise the awaited request is unchanged. |
| TodosPage.AfterFetch | course-04/project/c4-final-project-starter-code/client/src/components/Todos.tsx:139-153 | A fetched page replaces the todos with its items and sets the resume key to its key, or empty when it has none. Next is enabled exactly when that key is a non-empty string. The limit (read at arrival) and the stack are unchanged, loading ends and no reply is awaited any more. |
| TodosPage.WithoutTodo | course-04/project/c4-final-project-starter-code/client/src/components/Todos.tsx:88 | The filtered list contains every todo whose id differs from the given one and nothing else, and is no longer than the input. |
| TodosPage.WithoutTodoAppend | course-04/project/c4-final-project-starter-code/client/src/components/Todos.tsx:88 | Filtering distributes over concatenation, so the kept todos stay in their original order. |
| TodosPage.WithoutTodoCounts | course-04/project/c4-final-project-starter-code/client/src/components/Todos.tsx:88 | Filtering removes every copy of a todo with the given id and keeps every copy of any other todo. |
| TodosPage.AfterDelete | course-04/project/c4-final-project-starter-code/client/src/components/Todos.tsx:84-93 | A successful delete filters the shown todos by id; paging parameters, stack, loading flag, awaited request and name are unchanged. |
| TodosPage.Toggled | course-04/project/c4-final-project-starter-code/client/src/components/Todos.tsx:103-106 | The copy has the same length. Only the entry at the position has its completion flag negated, its other fields are equal, and every other entry is equal. |
| TodosPage.AfterCheck | course-04/project/c4-final-project-starter-code/client/src/components/Todos.tsx:95-111 | A check at an existing position toggles that todo. At a position with no todo, the handler's error path leaves the state unchanged. Paging state and the awaited request are unchanged either way. |
| TodosPage.NextFetchPrevious | course-04/project/c4-final-project-starter-code/client/src/components/Todos.tsx:112-125 | Next, any fetched page, then Previous restores the stack. The request parameters become the old stack's top key with the same limit. |
| TodosPage.ForwardPushes | course-04/project/c4-final-project-starter-code/client/src/components/Todos.tsx:112-115 | Walking forward k pages grows the stack by k, keeps its old entries as a prefix and keeps the limit. |
| TodosPage.BackPops | course-04/project/c4-final-project-starter-code/client/src/components/Todos.tsx:117-125 | Walking back k pages (k at most the stack height) drops exactly the last k keys. |
| TodosPage.ForwardThenBack | course-04/project/c4-final-project-starter-code/client/src/components/Todos.tsx:112-125 | Walking forward k pages and back k pages restores the stack, whatever pages arrive. |
| TodosPage.PreviousButtonAfterPaging | course-04/project/c4-final-project-starter-code/client/src/components/Todos.tsx:178-194 | The Previous button (enabled iff the stack is non-empty) is enabled after at least one page forward. It returns to its earlier state after as many pages back. |
| TodosPage.RunKeepsLoadTracked | course-04/project/c4-final-project-starter-code/client/src/components/Todos.tsx:139-163 | Over any sequence of user actions and fetch arrivals, a reply is awaited exactly while the page is loading: raising the flag while it is up starts no second fetch. |
| TodosPage.ControlsDuringLoad | course-04/project/c4-final-project-starter-code/client/src/components/Todos.tsx:112-137 | From page 1 with key "k1", Next then Previous during the load leaves the stack empty while page 2 is awaited, and page 2 is then shown with Previous disabled. Next then a new page size leaves the request for page 2 of the old size awaited while the stack and parameters point at page 1 of the new size. |
| TodosPage.GuardedRunKeepsInFlightMatchesStack | course-04/project/c4-final-project-starter-code/client/src/components/Todos.tsx:159-163 | If paging, the page size and create are ignored while a page loads, every awaited request is the current parameters and resumes from the key on top of the stack. |
| TodosPage.InitialGuardedRunsMatchStack | course-04/project/c4-final-project-starter-code/client/src/components/Todos.tsx:46-163 | From the mounted state, guarded runs keep the awaited request on the stack top, and any run keeps a reply awaited exactly while loading. |
| TodosPage.Todos.constructor | course-04/project/c4-final-project-starter-code/client/src/components/Todos.tsx:46-53 | The component starts in the initial state. |
| TodosPage.Todos.HandleNameChange | course-04/project/c4-final-project-starter-code/client/src/components/Todos.tsx:55-57 | Typing sets the pending name and changes nothing else. |
| TodosPage.Todos.StartLoading | course-04/project/c4-final-project-starter-code/client/src/components/Todos.tsx:159-163 | Raises the loading flag. When it was down, the current parameters become the awaited request; when it was already up, the awaited request is unchanged. |
| TodosPage.Todos.OnTodoCreate | course-04/project/c4-final-project-starter-code/client/src/components/Todos.tsx:63-82 | Sends a create request with the typed name and the given due date, then moves to the AfterCreate state. |
| TodosPage.Todos.OnTodoDelete | course-04/project/c4-final-project-starter-code/client/src/components/Todos.tsx:84-93 | Sends the delete of the given id, then moves to the AfterDelete state. |
| TodosPage.Todos.OnTodoCheck | course-04/project/c4-final-project-starter-code/client/src/components/Todos.tsx:95-111 | Sends an update exactly when a todo exists at the position. The update keeps that todo's name and due date and negates its completion flag. The method then moves to the AfterCheck state. |
| TodosPage.Todos.OnClickNextButton | course-04/project/c4-final-project-starter-code/client/src/components/Todos.tsx:112-115 | Moves to the AfterNext state. |
| TodosPage.Todos.OnClickPreviousButton | course-04/project/c4-final-project-starter-code/client/src/components/Todos.tsx:117-125 | Moves to the AfterPrevious state. |
| TodosPage.Todos.OnChangeLimit | course-04/project/c4-final-project-starter-code/client/src/components/Todos.tsx:127-137 | Moves to the AfterChangeLimit state. |
| TodosPage.Todos.GetTodos | course-04/project/c4-final-project-starter-code/client/src/components/Todos.tsx:139-153 | The reply to the awaited request arrives. Returns that request, fixed when its fetch started, and moves to the AfterFetch state. With no request awaited, nothing changes. |
| DataLayer.SameExceptScoped | course-04/project/c4-final-project-starter-code/backend/src/dataLayer/todosAcess.ts:74-122 | A change confined to one key of a user leaves every other user's entries unchanged. |
| DataLayer.AttachmentUrl | course-04/project/c4-final-project-starter-code/backend/src/dataLayer/todosAcess.ts:118 | The URL starts with "https://" and the bucket name and ends with the todo id. Its length is fixed by the two. |
| DataLayer.AttachmentUrlInjective | course-04/project/c4-final-project-starter-code/backend/src/dataLayer/todosAcess.ts:118 | Within one bucket, different todo ids give different attachment URLs. |
| DataLayer.Put | course-04/project/c4-final-project-starter-code/backend/src/dataLayer/todosAcess.ts:64-72 | Putting an item maps its own key to it and leaves every other key as it was; a well-keyed table stays well keyed. |
| DataLayer.Removed | course-04/project/c4-final-project-starter-code/backend/src/dataLayer/todosAcess.ts:74-85 | Deleting removes exactly the key (userId, todoId) and leaves other keys untouched. A missing key leaves the table unchanged. |
| DataLayer.Updated | course-04/project/c4-final-project-starter-code/backend/src/dataLayer/todosAcess.ts:87-106 | The item at the key gets the request's name, done and dueDate. Its userId, todoId, createdAt and attachmentUrl are kept, and other keys are untouched. A missing key leaves the table unchanged. |
| DataLayer.Attached | course-04/project/c4-final-project-starter-code/backend/src/dataLayer/todosAcess.ts:108-122 | The item at the key gets the bucket-and-id URL, and every other field and every other key is unchanged. A missing key leaves the table unchanged. |
| DataLayer.RemovedIdempotent | course-04/project/c4-final-project-starter-code/backend/src/dataLayer/todosAcess.ts:74-85 | Deleting twice gives the same table as deleting once. |
| DataLayer.AttachedIdempotent | course-04/project/c4-final-project-starter-code/backend/src/dataLayer/todosAcess.ts:108-122 | Recording an attachment twice gives the same table as once. |
| DataLayer.UpdatedIdempotent | course-04/project/c4-final-project-starter-code/backend/src/dataLayer/todosAcess.ts:87-106 | Applying the same update twice gives the same table as once. |
| DataLayer.TodosAccess.constructor | course-04/project/c4-final-project-starter-code/backend/src/dataLayer/todosAcess.ts:15-20 | The adapter is built over the given table, table name, index names and bucket. |
| DataLayer.TodosAccess.GetTodosForUser | course-04/project/c4-final-project-starter-code/backend/src/dataLayer/todosAcess.ts:22-35 | Every returned item belongs to the user, every item of the user is returned, and no key is returned twice. |
| DataLayer.TodosAccess.IndexFor | course-04/project/c4-final-project-starter-code/backend/src/dataLayer/todosAcess.ts:39-43 | The due-date index is chosen exactly when the order is "dueDate" (given distinct index names), and otherwise the created-at index. |
| DataLayer.TodosAccess.GetTodosQuery | course-04/project/c4-final-project-starter-code/backend/src/dataLayer/todosAcess.ts:37-62 | The paged query reads the configured table on the chosen index, scoped to the user, newest first. It uses the caller's limit and resume key. |
| DataLayer.TodosAccess.CreateTodo | course-04/project/c4-final-project-starter-code/backend/src/dataLayer/todosAcess.ts:64-72 | Returns the item unchanged and leaves the table as Put of the old table. |
| DataLayer.TodosAccess.DeleteTodo | course-04/project/c4-final-project-starter-code/backend/src/dataLayer/todosAcess.ts:74-85 | Leaves the table as Removed of the old table. |
| DataLayer.TodosAccess.UpdateTodo | course-04/project/c4-final-project-starter-code/backend/src/dataLayer/todosAcess.ts:87-106 | Leaves the table as Updated of the old table. |
| DataLayer.TodosAccess.UpdateTodoAttachment | course-04/project/c4-final-project-starter-code/backend/src/dataLayer/todosAcess.ts:108-122 | Leaves the table as Attached of the old table, with the adapter's bucket. |
| BusinessLogic.NewTodoItem | course-04/project/c4-final-project-starter-code/backend/src/businessLogic/todos.ts:36-50 | The new item has the caller's userId and the given fresh id and timestamp. It takes name and dueDate from the request, is not done and has no attachment URL. |
| BusinessLogic.CreateTodo | course-04/project/c4-final-project-starter-code/backend/src/businessLogic/todos.ts:36-50 | Returns the new item as the store hands it back, and the table becomes Put of the old table with that item. |
| BusinessLogic.GetTodos | course-04/project/c4-final-project-starter-code/backend/src/businessLogic/todos.ts:11-13 | Forwards to the store's listing; every returned item is the user's and every item of the user is returned. |
| BusinessLogic.GetTodosForUser | course-04/project/c4-final-project-starter-code/backend/src/businessLogic/todos.ts:15-18 | Issues the store's paged query with userId, resume key, limit and order unchanged. |
| BusinessLogic.UpdateTodo | course-04/project/c4-final-project-starter-code/backend/src/businessLogic/todos.ts:24-26 | Has the store's update effect with the arguments unchanged. |
| BusinessLogic.UpdateTodoAttachment | course-04/project/c4-final-project-starter-code/backend/src/businessLogic/todos.ts:28-30 | Has the store's attachment effect with the arguments unchanged. |
| BusinessLogic.DeleteTodo | course-04/project/c4-final-project-starter-code/backend/src/businessLogic/todos.ts:32-34 | Has the store's delete effect with the arguments unchanged. |
| BusinessLogic.CreatedItemListed | course-04/project/c4-final-project-starter-code/backend/src/businessLogic/todos.ts:36-50 | A created item appears in its owner's listing, and every other user's listing is unchanged. |
| BusinessLogic.UpdateVisibleInListing | course-04/project/c4-final-project-starter-code/backend/src/businessLogic/todos.ts:24-26 | After updating an existing item, its owner's listing holds that todo with the new name, due date and completion flag. |
| BusinessLogic.Apply | course-04/project/c4-final-project-starter-code/backend/src/businessLogic/todos.ts:24-50 | Any one use case run by a user leaves every other user's entries unchanged and keeps the table well keyed. |
| BusinessLogic.ApplyAllScoped | course-04/project/c4-final-project-starter-code/backend/src/businessLogic/todos.ts:24-50 | Any sequence of use cases run by a user leaves every other user's entries unchanged and keeps the table well keyed. |
| BusinessLogic.DeleteTwiceIsDeleteOnce | course-04/project/c4-final-project-starter-code/backend/src/businessLogic/todos.ts:32-34 | A second delete of the same todo succeeds and changes nothing. |
| GetTodosHandler.LimitOrDefault | course-04/project/c4-final-project-starter-code/backend/src/lambda/http/getTodos.ts:22 | The parsed page size is used when it is present and non-zero; absent or 0 gives 10. |
| GetTodosHandler.OrderByOrDefault | course-04/project/c4-final-project-starter-code/backend/src/lambda/http/getTodos.ts:23 | The parsed order is used when present, otherwise the empty order. |
| GetTodosHandler.Handle | course-04/project/c4-final-project-starter-code/backend/src/lambda/http/getTodos.ts:12-48 | The status is 400 exactly when a parse fails. Then the body is the "Invalid params" error and the service is not called. Otherwise the service is called once with the request's userId, the parsed key and the defaulted limit and order, and the status is 200 with the service's items and resume key unchanged. |
| GetTodosHandler.HandledQuery | course-04/project/c4-final-project-starter-code/backend/src/lambda/http/getTodos.ts:37 | The store query behind a successful listing is scoped to the caller and resumes from the parsed key. It reads 10 items when no page size was given, and uses the due-date index exactly when the order parsed as "dueDate". |

## Findings

The class `TodosPage.Todos` models the page as written. `TodosPage.GuardedStep` is the corrected behaviour, and the guarded invariant is proved for it.

| source | as written | input that shows it | evidently intended | confidence | as-written member | corrected member |
|---|---|---|---|---|---|---|
| course-04/project/c4-final-project-starter-code/client/src/components/Todos.tsx:178-200 | The Previous and Next buttons are only shown as loading during a fetch, and the page-size Select has no guard. Their handlers change the stack and the parameters, but no fetch starts while the flag is already up (lines 159-163). | Page 1 shown with resume key "k1"; Next; Previous (or a new page size) before page 2 arrives | The page shown after a reply is the one the stack and parameters point at, so these controls should be disabled while a page loads | medium for the buttons, whose loading state may swallow clicks; high for the Select; not executed | TodosPage.ControlsDuringLoad | TodosPage.GuardedRunKeepsInFlightMatchesStack |

## Left out

- Network calls, promises and the order in which concurrent handlers complete are not modelled: each handler and each fetch is one atomic step.
- The network call of a fetch is not modelled: the request it sends is recorded as `inFlight`, and its reply is the argument of `GetTodos`.
- The client error paths that only show an alert are not modelled: a failed network call is treated as a success. The one exception is a check at a position with no todo, modelled as no change.
  A failed fetch would leave the loading flag up, so no later fetch would start; the model does not capture this.
- The Next button's null test is not modelled: the model's resume key is always a string, because every assignment stores one.
- Rendering and the due-date computation of the page are not modelled; `OnTodoCreate` takes the due date as an argument.
- The store's client construction, tracing, logging and environment lookups are not modelled; names and the bucket are constructor arguments.
- DataLayer.TodosAccess.GetTodosForUser: the order of the returned items is the store's and is left open.
  The code runs one query and does not follow `LastEvaluatedKey` (todosAcess.ts:24-34). The model treats that one query as returning every item of the user, so for a partition larger than one store page it promises more than the code delivers.
  BusinessLogic.GetTodos forwards this listing and inherits the same gap.
- What a page query returns is not modelled: limit, scan direction, start key and the encoding of the last evaluated key are store behaviour, and the encoder is in a utilities module that is not part of this model.
  The query is modelled as the request datatype `Query`, and the page a listing returns is an input.
- DataLayer.Updated: an update of a missing key is modelled as a no-op. The update has no condition, and whether the store then creates a partial item is not visible in this code.
  DataLayer.Attached makes the same choice.
- The existence check `todoExists` (todosAcess.ts:124-135, businessLogic/todos.ts:52-54) is not modelled. It looks an item up by a single `id` attribute, which is not the table's `(userId, todoId)` key, so its answer depends on the store.
- The duplicate service module helpers/todos.ts is not part of this model. Its adapter is not available, and it calls a `getTodo` that the shown adapter lacks.
  The list handler imports `getTodosForUser` from that module, which does not export it. The handler is modelled as calling the same-named function of businessLogic/todos.ts.
- The parsers and the identity extraction of the lambda utilities are not part of this model. Their outcomes are arguments, and a non-number page size such as NaN is not representable.
- Response bodies are structured values rather than JSON text. The error handler and CORS middleware are left out, and so are service failures (a 500 from the middleware).
- Create, update and upload-URL handlers, the HTTP client module and the client configuration are not modelled: they are JSON parsing, one forwarded call and a fixed status code, or network plumbing.
- UUID generation and the clock are not modelled; the fresh id and the timestamp are arguments of BusinessLogic.CreateTodo.
