/**
 * The `TodoItemsController` web API (TodoItemsController.cs:21-133): a store
 * of to-do items keyed by id, with one action per HTTP verb. The Entity
 * Framework context is reduced to the table it exposes, a map from primary
 * key to item; an action that saves changes updates the map at once, and
 * every action answers with one of the status results the controller
 * returns.
 */
module TodoItems {

  /** C#'s `long`: a 64-bit two's-complement integer. */
  type Int64 = x: int | -0x8000_0000_0000_0000 <= x < 0x8000_0000_0000_0000

  /** A to-do item; `id` is its primary key. */
  datatype TodoItem = TodoItem(id: Int64, name: string, isComplete: bool)

  /** The action results the controller produces. */
  datatype Response =
    | Ok(item: TodoItem)                  // 200 with the item
    | NotFound                            // 404
    | BadRequest                          // 400
    | NoContent                           // 204
    | Created(location: Int64, item: TodoItem)   // 201, pointing at `GetTodoItem(location)`
    | ServerError                         // 500: an exception escaped the action

  /** The table as the database keeps it: every item is stored under its own id. */
  ghost predicate Keyed(store: map<Int64, TodoItem>) {
    forall k :: k in store ==> store[k].id == k
  }

  /** The key an added item is stored under: its own id, or the generated one in place of the default 0. */
  function KeyFor(todoItem: TodoItem, generated: Int64): Int64 {
    if todoItem.id == 0 then generated else todoItem.id
  }

  class TodoItemsController {
    /** The `TodoItems` table of the context. */
    var items: map<Int64, TodoItem>

    ghost predicate Valid()
      reads this
    {
      Keyed(items)
    }

    constructor (store: map<Int64, TodoItem>)
      requires Keyed(store)
      ensures Valid() && items == store
    {
      items := store;
    }

    /**
     * `TodoItemExists`: whether some stored item has the id. Because items
     * are stored under their ids, that is whether the id is a key.
     */
    predicate TodoItemExists(id: Int64)
      reads this
      ensures Valid() ==> (TodoItemExists(id) <==> id in items)
    {
      exists k :: k in items && items[k].id == id
    }

    /** `GetTodoItems`: every stored item, each once, in no particular order. */
    method GetTodoItems() returns (list: seq<TodoItem>)
      requires Valid()
      ensures |list| == |items|
      ensures forall i :: 0 <= i < |list| ==> list[i].id in items && items[list[i].id] == list[i]
      ensures forall k :: k in items ==> items[k] in list
      ensures forall i, j :: 0 <= i < j < |list| ==> list[i].id != list[j].id
    {
      list := [];
      var pending := items.Keys;
      while pending != {}
        invariant pending <= items.Keys
        invariant |list| + |pending| == |items|
        invariant forall i :: 0 <= i < |list| ==> list[i].id in items && list[i].id !in pending
        invariant forall i :: 0 <= i < |list| ==> items[list[i].id] == list[i]
        invariant forall k :: k in items && k !in pending ==> items[k] in list
        invariant forall i, j :: 0 <= i < j < |list| ==> list[i].id != list[j].id
        decreases |pending|
      {
        var k :| k in pending;
        list := list + [items[k]];
        pending := pending - {k};
      }
    }

    /** `GetTodoItem`: the item with the id, or `NotFound` when there is none; nothing changes. */
    method GetTodoItem(id: Int64) returns (r: Response)
      requires Valid()
      ensures r == NotFound <==> id !in items
      ensures r != NotFound ==> r == Ok(items[id]) && r.item.id == id
    {
      if id in items {
        r := Ok(items[id]);
      } else {
        r := NotFound;
      }
    }

    /**
     * `PutTodoItem`: an id that differs from the item's is a bad request.
     * Otherwise the item is saved as a modification of the stored row; when
     * there is no such row, saving fails with a concurrency exception and,
     * since no item has the id, the answer is `NotFound`.
     */
    method PutTodoItem(id: Int64, todoItem: TodoItem) returns (r: Response)
      requires Valid()
      modifies this
      ensures Valid()
      ensures r == BadRequest <==> id != todoItem.id
      ensures r == NotFound <==> id == todoItem.id && id !in old(items)
      ensures r == NoContent <==> id == todoItem.id && id in old(items)
      ensures items == (if r == NoContent then old(items)[id := todoItem] else old(items))
    {
      if id != todoItem.id {
        return BadRequest;
      }
      var rowUpdated := id in items;
      if rowUpdated {
        items := items[id := todoItem];
        return NoContent;
      }
      // The exception is rethrown only when the item exists after all,
      // which cannot be the case here.
      assert !TodoItemExists(id);
      r := NotFound;
    }

    /**
     * `PostTodoItem`: the item is added and the answer points at it. An item
     * posted with the default id 0 is given the key the database generates,
     * passed in as `generated`. Adding an item whose key is already in the
     * table throws, and the exception leaves the action.
     */
    method PostTodoItem(todoItem: TodoItem, generated: Int64) returns (r: Response)
      requires Valid()
      modifies this
      ensures Valid()
      ensures r == ServerError <==> KeyFor(todoItem, generated) in old(items)
      ensures r != ServerError ==>
        var stored := todoItem.(id := KeyFor(todoItem, generated));
        r == Created(stored.id, stored) && items == old(items)[stored.id := stored]
      ensures r == ServerError ==> items == old(items)
    {
      var stored := todoItem.(id := KeyFor(todoItem, generated));
      if stored.id in items {
        return ServerError;
      }
      items := items[stored.id := stored];
      r := Created(stored.id, stored);
    }

    /** `DeleteTodoItem`: removes the item with the id, or answers `NotFound` when there is none. */
    method DeleteTodoItem(id: Int64) returns (r: Response)
      requires Valid()
      modifies this
      ensures Valid()
      ensures r == NotFound <==> id !in old(items)
      ensures r != NotFound ==> r == NoContent && items == old(items) - {id}
      ensures r == NotFound ==> items == old(items)
    {
      if id !in items {
        return NotFound;
      }
      items := items - {id};
      r := NoContent;
    }
    /** What `PostTodoItem` creates, `GetTodoItem` finds at the location it answers with. */
    method PostThenGet(todoItem: TodoItem, generated: Int64) returns (created: Response, fetched: Response)
      requires Valid() && KeyFor(todoItem, generated) !in items
      modifies this
      ensures Valid()
      ensures created.Created? && fetched == Ok(created.item)
      ensures created.item == todoItem.(id := created.location)
    {
      created := PostTodoItem(todoItem, generated);
      fetched := GetTodoItem(created.location);
    }

    /** After `PutTodoItem` succeeds, `GetTodoItem` finds the new version of the item. */
    method PutThenGet(todoItem: TodoItem) returns (updated: Response, fetched: Response)
      requires Valid() && todoItem.id in items
      modifies this
      ensures Valid()
      ensures updated == NoContent && fetched == Ok(todoItem)
    {
      updated := PutTodoItem(todoItem.id, todoItem);
      fetched := GetTodoItem(todoItem.id);
    }

    /** After `DeleteTodoItem` succeeds, the item is gone: getting or deleting it again answers `NotFound`. */
    method DeleteThenGet(id: Int64) returns (deleted: Response, fetched: Response, again: Response)
      requires Valid() && id in items
      modifies this
      ensures Valid() && !TodoItemExists(id)
      ensures deleted == NoContent && fetched == NotFound && again == NotFound
    {
      deleted := DeleteTodoItem(id);
      fetched := GetTodoItem(id);
      again := DeleteTodoItem(id);
    }
  }
}
