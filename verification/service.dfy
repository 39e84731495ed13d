/** `InMemoryTodoService`: the store is the list of items in insertion order.
    The handlers hold on to the item they looked up and mutate it in place;
    here an item is identified by its position, which is where that one
    object sits in the list. */
module TodoService {
  import opened Wrappers
  import opened TodoModels
  import Seqs

  /** The items of one user. */
  function OwnedBy(userId: string): TodoItem -> bool {
    (item: TodoItem) => item.userId == userId
  }

  /** The items with an id that belong to one user. */
  function Matches(id: Guid, userId: string): TodoItem -> bool {
    (item: TodoItem) => item.id == id && item.userId == userId
  }

  /** `GetTodosForUserAsync`: the user's items, in insertion order. */
  function GetTodosForUser(items: seq<TodoItem>, userId: string): (r: seq<TodoItem>)
    ensures forall x :: x in r <==> x in items && x.userId == userId
    ensures forall x :: multiset(r)[x] == if x.userId == userId then multiset(items)[x] else 0
  {
    FilterCounts(items, userId);
    Seqs.Filter(items, OwnedBy(userId))
  }

  lemma FilterCounts(items: seq<TodoItem>, userId: string)
    ensures forall x :: multiset(Seqs.Filter(items, OwnedBy(userId)))[x] ==
                        if x.userId == userId then multiset(items)[x] else 0
  {
    forall x ensures multiset(Seqs.Filter(items, OwnedBy(userId)))[x] ==
                     if x.userId == userId then multiset(items)[x] else 0 {
      Seqs.FilterMultiset(items, OwnedBy(userId), x);
    }
  }

  /** The position of the first item with that id owned by that user. */
  function FindTodoItem(items: seq<TodoItem>, id: Guid, userId: string): (r: Option<nat>)
    ensures r.None? <==> forall i :: 0 <= i < |items| ==> !(items[i].id == id && items[i].userId == userId)
    ensures r.Some? ==> r.value < |items| && items[r.value].id == id && items[r.value].userId == userId
    ensures r.Some? ==> forall j :: 0 <= j < r.value ==> !(items[j].id == id && items[j].userId == userId)
  {
    Seqs.FirstIndex(items, Matches(id, userId))
  }

  /** `GetTodoItemForUserAsync`: the first item with that id owned by that
      user, or null. */
  function GetTodoItemForUser(items: seq<TodoItem>, id: Guid, userId: string): (r: Option<TodoItem>)
    ensures r.None? <==> forall x :: x in items ==> !(x.id == id && x.userId == userId)
    ensures r.Some? ==> r.value in items && r.value.id == id && r.value.userId == userId
    ensures r.Some? ==> r.value == items[FindTodoItem(items, id, userId).value]
  {
    match FindTodoItem(items, id, userId)
    case None => None
    case Some(i) => Some(items[i])
  }

  /** `AddTodoItemAsync`: append, duplicates included. */
  function AddTodoItem(items: seq<TodoItem>, item: TodoItem): (r: seq<TodoItem>)
    ensures |r| == |items| + 1 && r[..|items|] == items && r[|items|] == item
    ensures multiset(r) == multiset(items) + multiset{item}
  {
    items + [item]
  }

  /** `UpdateTodoItemAsync` does nothing: the caller has already mutated the
      item it holds. */
  function UpdateTodoItem(items: seq<TodoItem>, item: TodoItem): (r: seq<TodoItem>)
    ensures r == items
  {
    items
  }

  /** `RemoveTodoItemAsync`: delete the first occurrence of the item, if any. */
  function RemoveTodoItem(items: seq<TodoItem>, item: TodoItem): (r: seq<TodoItem>)
    ensures item !in items ==> r == items
    ensures item in items ==> |r| == |items| - 1 && multiset(r) == multiset(items) - multiset{item}
    ensures item in items ==>
      exists i :: 0 <= i < |items| && items[i] == item && item !in items[..i] && r == items[..i] + items[i + 1..]
  {
    match Seqs.FirstIndex(items, x => x == item)
    case None => items
    case Some(i) =>
      assert items == items[..i] + [items[i]] + items[i + 1..];
      assert item !in items[..i];
      items[..i] + items[i + 1..]
  }

  /** Adding an item extends the owner's list by that item at the end and
      leaves every other user's list alone. */
  lemma AddExtendsOwnerList(items: seq<TodoItem>, item: TodoItem, userId: string)
    ensures GetTodosForUser(AddTodoItem(items, item), userId) ==
            GetTodosForUser(items, userId) + (if item.userId == userId then [item] else [])
  {
    assert AddTodoItem(items, item) == items + [item];
    Seqs.FilterConcat(items, [item], OwnedBy(userId));
    assert Seqs.Filter([item], OwnedBy(userId)) == (if item.userId == userId then [item] else []) by {
      assert [item][1..] == [];
    }
  }

  /** Removing an item just added restores the store. */
  lemma RemoveUndoesAdd(items: seq<TodoItem>, item: TodoItem)
    requires item !in items
    ensures RemoveTodoItem(AddTodoItem(items, item), item) == items
  {
    var r := AddTodoItem(items, item);
    var i :| 0 <= i < |r| && r[i] == item && item !in r[..i] && RemoveTodoItem(r, item) == r[..i] + r[i + 1..];
    assert i == |items|;
  }
}
