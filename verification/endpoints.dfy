/** The `/todos` endpoint handlers. Each takes the store and the caller's
    claims and returns the HTTP result with the store afterwards. `newId`
    stands for `Guid.NewGuid()` and `now` for `DateTimeOffset.UtcNow`. */
module TodoEndpoints {
  import opened Wrappers
  import opened Claims
  import opened TodoModels
  import opened TodoService
  import Seqs

  datatype HttpResult =
    | OkList(items: seq<TodoItem>)
    | OkItem(item: TodoItem)
    | NotFound
    | NoContent
    | BadRequest(message: string)
    | CreatedAtRoute(value: TodoItem, routeName: string, routeId: Guid)

  /** The route name the created-at location points to. */
  const GetTodoById: string := "GetTodoById"

  const CompletedMessage: string := "Cannot update a completed todo item."

  /** `GetTodosForCurrentUserAsync`: exactly the caller's items. */
  function GetTodosForCurrentUser(items: seq<TodoItem>, user: seq<Claim>): (r: HttpResult)
    ensures r.OkList?
    ensures r.items == GetTodosForUser(items, GetUserId(user))
    ensures forall x :: x in r.items <==> x in items && x.userId == GetUserId(user)
    ensures forall x :: multiset(r.items)[x] == if x.userId == GetUserId(user) then multiset(items)[x] else 0
  {
    OkList(GetTodosForUser(items, GetUserId(user)))
  }

  /** `GetTodoItemAsync`: the caller's item with that id, or 404. */
  function GetTodoItem(items: seq<TodoItem>, id: Guid, user: seq<Claim>): (r: HttpResult)
    ensures r.NotFound? <==> forall x :: x in items ==> !(x.id == id && x.userId == GetUserId(user))
    ensures !r.NotFound? ==> r.OkItem? && r.item in items && r.item.id == id && r.item.userId == GetUserId(user)
    ensures r.OkItem? ==> Some(r.item) == GetTodoItemForUser(items, id, GetUserId(user))
  {
    match GetTodoItemForUser(items, id, GetUserId(user))
    case None => NotFound
    case Some(item) => OkItem(item)
  }

  /** The item an add creates: the request's text, the caller's id, open. */
  function NewTodoItem(request: CreateTodoItemRequest, user: seq<Claim>, newId: Guid, now: int): TodoItem {
    TodoItem(newId, GetUserId(user), request.title, request.description, false, now, None)
  }

  /** `AddTodoItemAsync`: store one new open item and answer 201 with it. */
  function AddTodoItem(items: seq<TodoItem>, request: CreateTodoItemRequest, user: seq<Claim>, newId: Guid, now: int)
    : (r: (HttpResult, seq<TodoItem>))
    ensures |r.1| == |items| + 1 && r.1[..|items|] == items
    ensures var item := r.1[|items|];
      && item.id == newId && item.userId == GetUserId(user)
      && item.title == request.title && item.description == request.description
      && !item.isCompleted && item.completedAt.None? && item.createdAt == now
      && r.0 == CreatedAtRoute(item, GetTodoById, newId)
  {
    var item := NewTodoItem(request, user, newId, now);
    (CreatedAtRoute(item, GetTodoById, item.id), TodoService.AddTodoItem(items, item))
  }

  /** The item after a successful update. */
  function Updated(item: TodoItem, request: UpdateTodoItemRequest, now: int): TodoItem {
    item.(title := request.title, description := request.description, isCompleted := request.isCompleted,
          completedAt := if request.isCompleted then Some(now) else None)
  }

  /** `UpdateTodoItemAsync`: 404 for an id the caller does not own, 400 for a
      completed item, else the item takes the request's values and 204. */
  function UpdateTodoItem(items: seq<TodoItem>, id: Guid, request: UpdateTodoItemRequest, user: seq<Claim>, now: int)
    : (r: (HttpResult, seq<TodoItem>))
    ensures FindTodoItem(items, id, GetUserId(user)).None? ==> r == (NotFound, items)
    ensures FindTodoItem(items, id, GetUserId(user)).Some? ==>
      var i := FindTodoItem(items, id, GetUserId(user)).value;
      && (items[i].isCompleted ==> r == (BadRequest(CompletedMessage), items))
      && (!items[i].isCompleted ==>
            && r.0 == NoContent
            && |r.1| == |items|
            && (forall j :: 0 <= j < |items| && j != i ==> r.1[j] == items[j])
            && r.1[i].id == id && r.1[i].userId == items[i].userId && r.1[i].createdAt == items[i].createdAt
            && r.1[i].title == request.title && r.1[i].description == request.description
            && r.1[i].isCompleted == request.isCompleted
            && (r.1[i].completedAt.Some? <==> request.isCompleted))
  {
    match FindTodoItem(items, id, GetUserId(user))
    case None => (NotFound, items)
    case Some(i) =>
      if items[i].isCompleted then (BadRequest(CompletedMessage), items)
      else
        var item := Updated(items[i], request, now);
        (NoContent, TodoService.UpdateTodoItem(items[i := item], item))
  }

  /** `RemoveTodoItemAsync`: 404 for an id the caller does not own, else the
      item is deleted, completed or not, and 204. */
  function RemoveTodoItem(items: seq<TodoItem>, id: Guid, user: seq<Claim>): (r: (HttpResult, seq<TodoItem>))
    ensures FindTodoItem(items, id, GetUserId(user)).None? ==> r == (NotFound, items)
    ensures FindTodoItem(items, id, GetUserId(user)).Some? ==>
      var i := FindTodoItem(items, id, GetUserId(user)).value;
      r == (NoContent, items[..i] + items[i + 1..])
  {
    match GetTodoItemForUser(items, id, GetUserId(user))
    case None => (NotFound, items)
    case Some(item) =>
      FirstEqualIsFirstMatch(items, id, GetUserId(user));
      (NoContent, TodoService.RemoveTodoItem(items, item))
  }

  /** The item the lookup finds is also the first item equal to it, so the
      store's remove deletes that very entry. */
  lemma FirstEqualIsFirstMatch(items: seq<TodoItem>, id: Guid, userId: string)
    requires FindTodoItem(items, id, userId).Some?
    ensures var i := FindTodoItem(items, id, userId).value;
      TodoService.RemoveTodoItem(items, items[i]) == items[..i] + items[i + 1..]
  {
    var i := FindTodoItem(items, id, userId).value;
    var item := items[i];
    var k :| 0 <= k < |items| && items[k] == item && item !in items[..k]
             && TodoService.RemoveTodoItem(items, item) == items[..k] + items[k + 1..];
    forall j | 0 <= j < k ensures items[j] != item {
      assert items[..k][j] == items[j];
    }
    assert forall j :: 0 <= j < i ==> items[j] != item;
    assert k == i;
  }

  /** An item's completion time is set exactly when it is completed. */
  ghost predicate CompletionConsistent(items: seq<TodoItem>) {
    forall k :: 0 <= k < |items| ==> (items[k].completedAt.Some? <==> items[k].isCompleted)
  }

  /** Every handler keeps completion times consistent. */
  lemma HandlersKeepCompletionConsistent(
    items: seq<TodoItem>, id: Guid, user: seq<Claim>, create: CreateTodoItemRequest,
    update: UpdateTodoItemRequest, newId: Guid, now: int)
    requires CompletionConsistent(items)
    ensures CompletionConsistent(AddTodoItem(items, create, user, newId, now).1)
    ensures CompletionConsistent(UpdateTodoItem(items, id, update, user, now).1)
    ensures CompletionConsistent(RemoveTodoItem(items, id, user).1)
  {
    AddKeepsCompletionConsistent(items, create, user, newId, now);
    UpdateKeepsCompletionConsistent(items, id, update, user, now);
    RemoveKeepsCompletionConsistent(items, id, user);
  }

  lemma AddKeepsCompletionConsistent(
    items: seq<TodoItem>, create: CreateTodoItemRequest, user: seq<Claim>, newId: Guid, now: int)
    requires CompletionConsistent(items)
    ensures CompletionConsistent(AddTodoItem(items, create, user, newId, now).1)
  {
    var added := AddTodoItem(items, create, user, newId, now).1;
    forall k | 0 <= k < |added| ensures added[k].completedAt.Some? <==> added[k].isCompleted {
      if k < |items| { assert added[k] == added[..|items|][k]; }
    }
  }

  lemma UpdateKeepsCompletionConsistent(
    items: seq<TodoItem>, id: Guid, update: UpdateTodoItemRequest, user: seq<Claim>, now: int)
    requires CompletionConsistent(items)
    ensures CompletionConsistent(UpdateTodoItem(items, id, update, user, now).1)
  {
  }

  lemma RemoveKeepsCompletionConsistent(items: seq<TodoItem>, id: Guid, user: seq<Claim>)
    requires CompletionConsistent(items)
    ensures CompletionConsistent(RemoveTodoItem(items, id, user).1)
  {
    var removed := RemoveTodoItem(items, id, user).1;
    if FindTodoItem(items, id, GetUserId(user)).Some? {
      var i := FindTodoItem(items, id, GetUserId(user)).value;
      forall k | 0 <= k < |removed| ensures removed[k].completedAt.Some? <==> removed[k].isCompleted {
        if k < i { assert removed[k] == items[k]; } else { assert removed[k] == items[k + 1]; }
      }
    }
  }

  /** A completed item is frozen: every update answers 400 and changes nothing. */
  lemma CompletedItemsAreFrozen(items: seq<TodoItem>, id: Guid, request: UpdateTodoItemRequest, user: seq<Claim>, now: int)
    requires GetTodoItemForUser(items, id, GetUserId(user)).Some?
    requires GetTodoItemForUser(items, id, GetUserId(user)).value.isCompleted
    ensures UpdateTodoItem(items, id, request, user, now) == (BadRequest(CompletedMessage), items)
  {
  }

  /** No handler reads or alters another user's items: every other user's
      list is the same after an add, an update or a removal. */
  lemma AddLeavesOtherUsersAlone(
    items: seq<TodoItem>, user: seq<Claim>, other: string, create: CreateTodoItemRequest, newId: Guid, now: int)
    requires other != GetUserId(user)
    ensures GetTodosForUser(AddTodoItem(items, create, user, newId, now).1, other) == GetTodosForUser(items, other)
  {
    AddExtendsOwnerList(items, NewTodoItem(create, user, newId, now), other);
  }

  lemma UpdateLeavesOtherUsersAlone(
    items: seq<TodoItem>, id: Guid, user: seq<Claim>, other: string, update: UpdateTodoItemRequest, now: int)
    requires other != GetUserId(user)
    ensures GetTodosForUser(UpdateTodoItem(items, id, update, user, now).1, other) == GetTodosForUser(items, other)
  {
    var found := FindTodoItem(items, id, GetUserId(user));
    if found.Some? && !items[found.value].isCompleted {
      var i := found.value;
      Seqs.FilterUpdateRejected(items, i, Updated(items[i], update, now), OwnedBy(other));
    }
  }

  lemma RemoveLeavesOtherUsersAlone(items: seq<TodoItem>, id: Guid, user: seq<Claim>, other: string)
    requires other != GetUserId(user)
    ensures GetTodosForUser(RemoveTodoItem(items, id, user).1, other) == GetTodosForUser(items, other)
  {
    var found := FindTodoItem(items, id, GetUserId(user));
    if found.Some? {
      Seqs.FilterDeleteRejected(items, found.value, OwnedBy(other));
    }
  }

  /** A created item can be fetched back by its id, unless the caller already
      owned an item with that id. */
  lemma AddThenGet(items: seq<TodoItem>, create: CreateTodoItemRequest, user: seq<Claim>, newId: Guid, now: int)
    requires forall x :: x in items ==> !(x.id == newId && x.userId == GetUserId(user))
    ensures GetTodoItem(AddTodoItem(items, create, user, newId, now).1, newId, user) ==
            OkItem(NewTodoItem(create, user, newId, now))
  {
    var after := AddTodoItem(items, create, user, newId, now).1;
    assert forall j :: 0 <= j < |items| ==> after[j] == items[j];
  }

  /** After a successful update, fetching the id returns the updated item. */
  lemma UpdateThenGet(items: seq<TodoItem>, id: Guid, request: UpdateTodoItemRequest, user: seq<Claim>, now: int)
    requires UpdateTodoItem(items, id, request, user, now).0 == NoContent
    ensures var i := FindTodoItem(items, id, GetUserId(user)).value;
      GetTodoItem(UpdateTodoItem(items, id, request, user, now).1, id, user) == OkItem(Updated(items[i], request, now))
  {
    var i := FindTodoItem(items, id, GetUserId(user)).value;
    var after := UpdateTodoItem(items, id, request, user, now).1;
  }

  /** When ids are unique, a removed item can no longer be fetched. */
  lemma RemoveThenGet(items: seq<TodoItem>, id: Guid, user: seq<Claim>)
    requires forall j, k :: 0 <= j < k < |items| ==> items[j].id != items[k].id
    requires RemoveTodoItem(items, id, user).0 == NoContent
    ensures GetTodoItem(RemoveTodoItem(items, id, user).1, id, user) == NotFound
  {
    var i := FindTodoItem(items, id, GetUserId(user)).value;
    var after := RemoveTodoItem(items, id, user).1;
    forall x | x in after ensures !(x.id == id && x.userId == GetUserId(user)) {
      var k :| 0 <= k < |after| && after[k] == x;
      if k < i { assert x == items[k]; } else { assert x == items[k + 1]; }
    }
  }
}
