/** The paging state of the client's to-do list page.

    The page keeps the todos on show, the parameters of the next list request
    (`param`: a resume key and a page size) and a stack of the resume keys of
    the pages visited so far (`nextKeyArr`). A fetch starts only when
    `loadingTodos` turns from false to true, and it sends the parameters of
    that moment; `inFlight` records that request until its reply arrives. Each
    handler below is one atomic step, and the arrival of a fetched page is a
    step of its own (`GetTodos`). The pure functions on `PageView` specify each
    step; the class `Todos` performs them on its fields. */
module TodosPage {
  import opened Model

  /** The parameters of a list request. */
  datatype GetTodoReq = GetTodoReq(nextKey: string, limit: int)

  /** A snapshot of the component state, with the request whose reply is awaited. */
  datatype PageView = PageView(
    todos: seq<TodoItem>,
    newTodoName: string,
    loadingTodos: bool,
    param: GetTodoReq,
    nextKeyArr: seq<string>,
    inFlight: Option<GetTodoReq>)

  /** The page size the component starts with. */
  const InitialLimit := 3

  /** The state after mounting: nothing shown yet, and the first page requested. */
  function Initial(): (v: PageView)
    ensures v.todos == [] && v.nextKeyArr == [] && v.loadingTodos && v.newTodoName == ""
    ensures v.param == GetTodoReq("", InitialLimit)
    ensures v.inFlight == Some(v.param)
  {
    PageView([], "", true, GetTodoReq("", InitialLimit), [], Some(GetTodoReq("", InitialLimit)))
  }

  /** Dropping the last key, as `pop()` does; popping an empty stack leaves it empty. */
  function Pop(keys: seq<string>): (r: seq<string>)
    ensures |keys| > 0 ==> |r| == |keys| - 1
    ensures |r| <= |keys| && r == keys[..|r|]
  {
    if |keys| == 0 then [] else keys[..|keys| - 1]
  }

  /** The last key, or the empty key when there is none (a missing last entry
      reads as empty). */
  function Top(keys: seq<string>): (top: string)
    ensures |keys| > 0 ==> Pop(keys) + [top] == keys
    ensures |keys| == 0 ==> top == ""
  {
    if |keys| == 0 then "" else assert keys[..|keys| - 1] + [keys[|keys| - 1]] == keys; keys[|keys| - 1]
  }

  /** The Previous button is enabled exactly when there is an earlier page to
      go back to: popping the stack would change it. */
  function PreviousEnabled(v: PageView): (enabled: bool)
    ensures enabled <==> Pop(v.nextKeyArr) != v.nextKeyArr
  {
    |v.nextKeyArr| != 0
  }

  /** The Next button is enabled exactly when Next would push a real resume key.
      The resume key is never null here: every assignment to it stores a string. */
  function NextEnabled(v: PageView): (enabled: bool)
    ensures enabled <==> Top(AfterNext(v).nextKeyArr) != ""
  {
    v.param.nextKey != ""
  }

  /** A reply is awaited exactly while `loadingTodos` is up. */
  predicate LoadTracked(v: PageView) {
    v.loadingTodos <==> v.inFlight.Some?
  }

  /** Besides, the awaited request is the current parameters and resumes from
      the key on top of the stack (the first page when the stack is empty): the
      page that arrives is the one the stack says is on show. */
  predicate InFlightMatchesStack(v: PageView) {
    && LoadTracked(v)
    && (v.inFlight.Some? ==> v.inFlight.value == v.param && v.param.nextKey == Top(v.nextKeyArr))
  }

  /** The request awaited after a handler raises `loadingTodos` with parameters
      `param`: a new one when nothing was loading; otherwise the flag was up
      already, no fetch starts, and the earlier request is still the one awaited. */
  function Requested(v: PageView, param: GetTodoReq): Option<GetTodoReq> {
    if v.loadingTodos then v.inFlight else Some(param)
  }

  /** Next: push the current resume key and start loading. */
  function AfterNext(v: PageView): (w: PageView)
    ensures |w.nextKeyArr| == |v.nextKeyArr| + 1
    ensures w.nextKeyArr[..|v.nextKeyArr|] == v.nextKeyArr
    ensures w.nextKeyArr[|v.nextKeyArr|] == v.param.nextKey
    ensures w.param == v.param && w.todos == v.todos && w.newTodoName == v.newTodoName
    ensures w.loadingTodos && PreviousEnabled(w)
    ensures !v.loadingTodos ==> w.inFlight == Some(w.param) && w.param.nextKey == Top(w.nextKeyArr)
    ensures v.loadingTodos ==> w.inFlight == v.inFlight
  {
    v.(nextKeyArr := v.nextKeyArr + [v.param.nextKey], loadingTodos := true, inFlight := Requested(v, v.param))
  }

  /** Previous: pop the stack and resume from the key now on top. */
  function AfterPrevious(v: PageView): (w: PageView)
    ensures |v.nextKeyArr| > 0 ==> w.nextKeyArr + [v.nextKeyArr[|v.nextKeyArr| - 1]] == v.nextKeyArr
    ensures |v.nextKeyArr| == 0 ==> w.nextKeyArr == []
    ensures w.param.nextKey == (if |w.nextKeyArr| == 0 then "" else w.nextKeyArr[|w.nextKeyArr| - 1])
    ensures w.param.limit == v.param.limit
    ensures w.todos == v.todos && w.newTodoName == v.newTodoName && w.loadingTodos
    ensures !v.loadingTodos ==> w.inFlight == Some(w.param)
    ensures v.loadingTodos ==> w.inFlight == v.inFlight
  {
    var keys := Pop(v.nextKeyArr);
    var param := v.param.(nextKey := Top(keys));
    v.(nextKeyArr := keys, param := param, loadingTodos := true, inFlight := Requested(v, param))
  }

  /** A new page size: back to the first page with the new limit. */
  function AfterChangeLimit(v: PageView, newLimit: int): (w: PageView)
    ensures w.param == GetTodoReq("", newLimit) && w.nextKeyArr == []
    ensures !PreviousEnabled(w) && !NextEnabled(w)
    ensures w.todos == v.todos && w.newTodoName == v.newTodoName && w.loadingTodos
    ensures !v.loadingTodos ==> w.inFlight == Some(GetTodoReq("", newLimit))
    ensures v.loadingTodos ==> w.inFlight == v.inFlight
  {
    var param := v.param.(limit := newLimit, nextKey := "");
    v.(loadingTodos := true, nextKeyArr := [], param := param, inFlight := Requested(v, param))
  }

  /** A successful create: clear the input and go back to the first page, keeping the limit. */
  function AfterCreate(v: PageView): (w: PageView)
    ensures w.param == GetTodoReq("", v.param.limit) && w.nextKeyArr == []
    ensures w.newTodoName == "" && w.todos == v.todos
    ensures !PreviousEnabled(w) && !NextEnabled(w) && w.loadingTodos
    ensures !v.loadingTodos ==> w.inFlight == Some(GetTodoReq("", v.param.limit))
    ensures v.loadingTodos ==> w.inFlight == v.inFlight
  {
    var param := v.param.(nextKey := "");
    v.(loadingTodos := true, newTodoName := "", nextKeyArr := [], param := param, inFlight := Requested(v, param))
  }

  /** A fetched page arrives: show its items and remember its resume key, or the
      empty key when the page has none. The limit is read from the state at
      arrival, not from the request. */
  function AfterFetch(v: PageView, page: TodoPage): (w: PageView)
    ensures w.todos == page.items
    ensures page.nextKey.Some? ==> w.param.nextKey == page.nextKey.value
    ensures page.nextKey.None? ==> w.param.nextKey == ""
    ensures NextEnabled(w) <==> page.nextKey.Some? && page.nextKey.value != ""
    ensures w.param.limit == v.param.limit && w.nextKeyArr == v.nextKeyArr
    ensures PreviousEnabled(w) == PreviousEnabled(v)
    ensures w.newTodoName == v.newTodoName && !w.loadingTodos && w.inFlight.None?
  {
    v.(todos := page.items, param := v.param.(nextKey := page.nextKey.GetOr("")),
       loadingTodos := false, inFlight := None)
  }

  /** The todos whose id differs from `todoId`, in their original order. */
  function WithoutTodo(todos: seq<TodoItem>, todoId: string): (r: seq<TodoItem>)
    ensures |r| <= |todos|
    ensures forall t :: t in r ==> t in todos && t.todoId != todoId
    ensures forall t :: t in todos && t.todoId != todoId ==> t in r
  {
    if |todos| == 0 then []
    else if todos[0].todoId == todoId then WithoutTodo(todos[1..], todoId)
    else [todos[0]] + WithoutTodo(todos[1..], todoId)
  }

  /** Filtering keeps the order: it distributes over concatenation. */
  lemma {:induction false} WithoutTodoAppend(a: seq<TodoItem>, b: seq<TodoItem>, todoId: string)
    ensures WithoutTodo(a + b, todoId) == WithoutTodo(a, todoId) + WithoutTodo(b, todoId)
  {
    if |a| == 0 {
      assert a + b == b;
    } else {
      assert (a + b)[1..] == a[1..] + b;
      WithoutTodoAppend(a[1..], b, todoId);
    }
  }

  /** Filtering removes every copy of a matching todo and keeps every copy of the others. */
  lemma {:induction false} WithoutTodoCounts(todos: seq<TodoItem>, todoId: string, t: TodoItem)
    ensures multiset(WithoutTodo(todos, todoId))[t] == if t.todoId == todoId then 0 else multiset(todos)[t]
  {
    if |todos| > 0 {
      assert todos == [todos[0]] + todos[1..];
      WithoutTodoCounts(todos[1..], todoId, t);
    }
  }

  /** A successful delete drops the todos with that id from the page. */
  function AfterDelete(v: PageView, todoId: string): (w: PageView)
    ensures w.todos == WithoutTodo(v.todos, todoId)
    ensures w.param == v.param && w.nextKeyArr == v.nextKeyArr && w.inFlight == v.inFlight
    ensures w.loadingTodos == v.loadingTodos && w.newTodoName == v.newTodoName
  {
    v.(todos := WithoutTodo(v.todos, todoId))
  }

  /** A copy of `todos` whose entry at `pos` has its completion flag flipped. */
  function Toggled(todos: seq<TodoItem>, pos: nat): (r: seq<TodoItem>)
    requires pos < |todos|
    ensures |r| == |todos|
    ensures r[pos].done == !todos[pos].done
    ensures r[pos].(done := todos[pos].done) == todos[pos]
    ensures forall i :: 0 <= i < |r| && i != pos ==> r[i] == todos[i]
  {
    todos[pos := todos[pos].(done := !todos[pos].done)]
  }

  /** A check at `pos`: flips `done` there; a position with no todo is an error the
      handler catches, and nothing changes. */
  function AfterCheck(v: PageView, pos: int): (w: PageView)
    ensures 0 <= pos < |v.todos| ==> w.todos == Toggled(v.todos, pos)
    ensures !(0 <= pos < |v.todos|) ==> w == v
    ensures w.param == v.param && w.nextKeyArr == v.nextKeyArr && w.inFlight == v.inFlight
    ensures w.loadingTodos == v.loadingTodos && w.newTodoName == v.newTodoName
  {
    if 0 <= pos < |v.todos| then v.(todos := Toggled(v.todos, pos)) else v
  }

  /** Next then a fetched page then Previous restores the stack, and the request
      Previous issues uses the key on top of that stack again. */
  lemma NextFetchPrevious(v: PageView, page: TodoPage)
    ensures AfterPrevious(AfterFetch(AfterNext(v), page)).nextKeyArr == v.nextKeyArr
    ensures AfterPrevious(AfterFetch(AfterNext(v), page)).param == GetTodoReq(Top(v.nextKeyArr), v.param.limit)
  {
    var w := AfterFetch(AfterNext(v), page);
    assert w.nextKeyArr == v.nextKeyArr + [v.param.nextKey];
    assert Pop(w.nextKeyArr) == v.nextKeyArr;
  }

  /** Paging forward once per fetched page: Next, then the page arrives. */
  function Forward(v: PageView, pages: seq<TodoPage>): PageView
    decreases |pages|
  {
    if |pages| == 0 then v else Forward(AfterFetch(AfterNext(v), pages[0]), pages[1..])
  }

  /** Paging back once per fetched page: Previous, then the page arrives. */
  function Back(v: PageView, pages: seq<TodoPage>): PageView
    decreases |pages|
  {
    if |pages| == 0 then v else Back(AfterFetch(AfterPrevious(v), pages[0]), pages[1..])
  }

  lemma {:induction false} ForwardPushes(v: PageView, pages: seq<TodoPage>)
    ensures |Forward(v, pages).nextKeyArr| == |v.nextKeyArr| + |pages|
    ensures Forward(v, pages).nextKeyArr[..|v.nextKeyArr|] == v.nextKeyArr
    ensures Forward(v, pages).param.limit == v.param.limit
    decreases |pages|
  {
    if |pages| > 0 {
      var w := AfterFetch(AfterNext(v), pages[0]);
      ForwardPushes(w, pages[1..]);
      assert w.nextKeyArr[..|v.nextKeyArr|] == v.nextKeyArr;
    }
  }

  lemma {:induction false} BackPops(v: PageView, pages: seq<TodoPage>)
    requires |pages| <= |v.nextKeyArr|
    ensures Back(v, pages).nextKeyArr == v.nextKeyArr[..|v.nextKeyArr| - |pages|]
    decreases |pages|
  {
    if |pages| > 0 {
      var w := AfterFetch(AfterPrevious(v), pages[0]);
      assert w.nextKeyArr == v.nextKeyArr[..|v.nextKeyArr| - 1];
      BackPops(w, pages[1..]);
    }
  }

  /** Going forward k pages and back k pages, whatever pages arrive, restores the stack. */
  lemma ForwardThenBack(v: PageView, ahead: seq<TodoPage>, behind: seq<TodoPage>)
    requires |ahead| == |behind|
    ensures Back(Forward(v, ahead), behind).nextKeyArr == v.nextKeyArr
  {
    ForwardPushes(v, ahead);
    BackPops(Forward(v, ahead), behind);
  }

  /** The Previous button: enabled after walking forward at least one page, and
      back to its earlier state once as many pages have been walked back. */
  lemma PreviousButtonAfterPaging(v: PageView, ahead: seq<TodoPage>, behind: seq<TodoPage>)
    requires |ahead| == |behind|
    ensures PreviousEnabled(Forward(v, ahead)) <==> PreviousEnabled(v) || |ahead| > 0
    ensures PreviousEnabled(Back(Forward(v, ahead), behind)) == PreviousEnabled(v)
  {
    ForwardPushes(v, ahead);
    ForwardThenBack(v, ahead, behind);
  }


  /** The user actions and fetch arrivals the page reacts to. */
  datatype Event =
    | NameChanged(value: string)
    | Created
    | Deleted(todoId: string)
    | Checked(pos: int)
    | NextClicked
    | PreviousClicked
    | LimitChanged(newLimit: int)
    | Fetched(page: TodoPage)

  /** One step; a page arrives only as the reply to an awaited request. */
  function Step(v: PageView, e: Event): PageView {
    match e
    case NameChanged(value) => v.(newTodoName := value)
    case Created => AfterCreate(v)
    case Deleted(id) => AfterDelete(v, id)
    case Checked(pos) => AfterCheck(v, pos)
    case NextClicked => AfterNext(v)
    case PreviousClicked => AfterPrevious(v)
    case LimitChanged(n) => AfterChangeLimit(v, n)
    case Fetched(page) => if v.inFlight.Some? then AfterFetch(v, page) else v
  }

  function Run(v: PageView, events: seq<Event>): PageView
    decreases |events|
  {
    if |events| == 0 then v else Run(Step(v, events[0]), events[1..])
  }

  /** Whatever the user does, exactly one reply is awaited while the page is
      loading and none otherwise: a handler that raises the flag while it is up
      starts no second fetch. */
  lemma {:induction false} RunKeepsLoadTracked(v: PageView, events: seq<Event>)
    requires LoadTracked(v)
    ensures LoadTracked(Run(v, events))
    decreases |events|
  {
    if |events| > 0 {
      RunKeepsLoadTracked(Step(v, events[0]), events[1..]);
    }
  }

  /** Paging, a new page size and a create while a page is loading change the
      stack but start no fetch, so the page that then arrives is not the one the
      stack points at. From page 1 (resume key "k1"): Next then Previous before
      page 2 arrives leaves the stack empty while page 2 is awaited, and page 2
      is then shown with Previous disabled; Next then a new page size leaves the
      first page of the new size expected while page 2 of the old size is awaited. */
  lemma ControlsDuringLoad(first: seq<TodoItem>, second: TodoPage, newLimit: int)
    requires newLimit != InitialLimit
    ensures var v2 := Step(Step(Initial(), Fetched(TodoPage(first, Some("k1")))), NextClicked);
            var v3 := Step(v2, PreviousClicked);
            var v4 := Step(v3, Fetched(second));
            && v3.loadingTodos && v3.nextKeyArr == [] && Top(v3.nextKeyArr) == ""
            && v3.inFlight == Some(GetTodoReq("k1", InitialLimit))
            && !InFlightMatchesStack(v3)
            && v4.todos == second.items && !PreviousEnabled(v4)
    ensures var v2 := Step(Step(Initial(), Fetched(TodoPage(first, Some("k1")))), NextClicked);
            var u := Step(v2, LimitChanged(newLimit));
            && u.param == GetTodoReq("", newLimit) && u.nextKeyArr == []
            && u.inFlight == Some(GetTodoReq("k1", InitialLimit))
            && !InFlightMatchesStack(u)
  {
    var v1 := Step(Initial(), Fetched(TodoPage(first, Some("k1"))));
    assert v1.param == GetTodoReq("k1", InitialLimit) && v1.nextKeyArr == [] && !v1.loadingTodos;
    var v2 := Step(v1, NextClicked);
    assert v2.nextKeyArr == ["k1"] && v2.inFlight == Some(GetTodoReq("k1", InitialLimit));
  }

  /** The requests the controls change: paging, the page size and a create. */
  predicate ChangesRequest(e: Event) {
    e.Created? || e.NextClicked? || e.PreviousClicked? || e.LimitChanged?
  }

  /** A step with those controls disabled while a page is loading: such an
      event is then ignored. */
  function GuardedStep(v: PageView, e: Event): PageView {
    if v.loadingTodos && ChangesRequest(e) then v else Step(v, e)
  }

  function GuardedRun(v: PageView, events: seq<Event>): PageView
    decreases |events|
  {
    if |events| == 0 then v else GuardedRun(GuardedStep(v, events[0]), events[1..])
  }

  /** With the request-changing controls disabled during a load, every awaited
      request is the current parameters and resumes from the key on top of the
      stack, so every page that arrives is the one the stack points at. */
  lemma {:induction false} GuardedRunKeepsInFlightMatchesStack(v: PageView, events: seq<Event>)
    requires InFlightMatchesStack(v)
    ensures InFlightMatchesStack(GuardedRun(v, events))
    decreases |events|
  {
    if |events| > 0 {
      GuardedRunKeepsInFlightMatchesStack(GuardedStep(v, events[0]), events[1..]);
    }
  }

  /** From the mounted state, guarded runs keep the awaited request on the stack top. */
  lemma InitialGuardedRunsMatchStack(events: seq<Event>)
    ensures InFlightMatchesStack(GuardedRun(Initial(), events))
    ensures LoadTracked(Run(Initial(), events))
  {
    GuardedRunKeepsInFlightMatchesStack(Initial(), events);
    RunKeepsLoadTracked(Initial(), events);
  }

  /** The component. */
  class Todos {
    var todos: seq<TodoItem>
    var newTodoName: string
    var loadingTodos: bool
    var param: GetTodoReq
    var nextKeyArr: seq<string>
    /** The request of the fetch whose reply is awaited, if any. */
    var inFlight: Option<GetTodoReq>

    function View(): PageView
      reads this
    {
      PageView(todos, newTodoName, loadingTodos, param, nextKeyArr, inFlight)
    }

    /** Construction and mounting: the initial state, with the first page requested. */
    constructor ()
      ensures View() == Initial()
    {
      todos := [];
      newTodoName := "";
      loadingTodos := true;
      param := GetTodoReq("", InitialLimit);
      nextKeyArr := [];
      inFlight := Some(param);
    }

    method HandleNameChange(value: string)
      modifies this
      ensures View() == old(View()).(newTodoName := value)
    {
      newTodoName := value;
    }

    /** Raises `loadingTodos`; when it was down, a fetch of the current
        parameters starts. */
    method StartLoading()
      modifies this
      ensures View() == old(View()).(loadingTodos := true, inFlight := Requested(old(View()), param))
    {
      if !loadingTodos {
        inFlight := Some(param);
      }
      loadingTodos := true;
    }

    /** Sends the create request built from the typed name and `dueDate`, then
        resets paging. */
    method OnTodoCreate(dueDate: string) returns (sent: CreateTodoRequest)
      modifies this
      ensures sent == CreateTodoRequest(old(newTodoName), dueDate)
      ensures View() == AfterCreate(old(View()))
    {
      sent := CreateTodoRequest(newTodoName, dueDate);
      newTodoName := "";
      nextKeyArr := [];
      param := param.(nextKey := "");
      StartLoading();
    }

    /** Sends the delete of `todoId`, then drops that todo from the page. */
    method OnTodoDelete(todoId: string) returns (sent: string)
      modifies this
      ensures sent == todoId
      ensures View() == AfterDelete(old(View()), todoId)
    {
      sent := todoId;
      todos := WithoutTodo(todos, todoId);
    }

    /** Sends the update that flips `done` of the todo at `pos`, then flips it on
        the page; with no todo at `pos` nothing is sent and nothing changes. */
    method OnTodoCheck(pos: int) returns (sent: Option<(string, UpdateTodoRequest)>)
      modifies this
      ensures View() == AfterCheck(old(View()), pos)
      ensures sent.Some? <==> 0 <= pos < |old(todos)|
      ensures sent.Some? ==> var t := old(todos)[pos];
                             sent.value == (t.todoId, UpdateTodoRequest(t.name, t.dueDate, !t.done))
    {
      if 0 <= pos < |todos| {
        var todo := todos[pos];
        sent := Some((todo.todoId, UpdateTodoRequest(todo.name, todo.dueDate, !todo.done)));
        todos := todos[pos := todo.(done := !todo.done)];
      } else {
        sent := None;
      }
    }

    method OnClickNextButton()
      modifies this
      ensures View() == AfterNext(old(View()))
    {
      nextKeyArr := nextKeyArr + [param.nextKey];
      StartLoading();
    }

    method OnClickPreviousButton()
      modifies this
      ensures View() == AfterPrevious(old(View()))
    {
      if |nextKeyArr| > 0 {
        nextKeyArr := nextKeyArr[..|nextKeyArr| - 1];
      }
      var top := if |nextKeyArr| == 0 then "" else nextKeyArr[|nextKeyArr| - 1];
      param := param.(nextKey := top);
      StartLoading();
    }

    method OnChangeLimit(newLimit: int)
      modifies this
      ensures View() == AfterChangeLimit(old(View()), newLimit)
    {
      nextKeyArr := [];
      param := param.(limit := newLimit, nextKey := "");
      StartLoading();
    }

    /** The reply to the awaited request arrives and its page is shown. Returns
        the request it answers, fixed when the fetch started; with no request
        awaited nothing changes. */
    method GetTodos(reply: TodoPage) returns (answered: Option<GetTodoReq>)
      modifies this
      ensures answered == old(inFlight)
      ensures old(inFlight).Some? ==> View() == AfterFetch(old(View()), reply)
      ensures old(inFlight).None? ==> View() == old(View())
    {
      answered := inFlight;
      if inFlight.Some? {
        todos := reply.items;
        param := param.(nextKey := reply.nextKey.GetOr(""));
        loadingTodos := false;
        inFlight := None;
      }
    }
  }
}
