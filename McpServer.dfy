/** The tool/resource front end (db/todo_mcp.py): the same store and the same
    checks as the HTTP front end, except that `CreateItem` takes no due date
    and `UpdateItem` writes only description and completed. */
module McpServer {
  import opened Schema

  /** Resource `file:///todo/lists`: every list with its items. */
  function GetAllLists(db: Store): (r: map<int, ListRecord>)
    reads db
    ensures r.Keys == db.lists.Keys
    ensures forall id | id in r :: r[id] == ListRecord(id, db.lists[id], ItemsOf(db.items, id))
  {
    AllLists(db.lists, db.items)
  }

  /** Resource `file:///todo/lists/{list_id}`: the list with that id, or NotFound. */
  function GetList(db: Store, listId: int): (r: Result<ListRecord>)
    reads db
    ensures r.Ok? <==> listId in db.lists
    ensures r.Ok? ==> r.value == ListRecord(listId, db.lists[listId], ItemsOf(db.items, listId))
    ensures r.Err? ==> r.error == NotFound
  {
    if listId in db.lists then Ok(RecordOf(db.lists, db.items, listId)) else Err(NotFound)
  }

  /** Tool `create_todo_list`: Conflict for a name in use; otherwise one new
      list, so names stay unique. */
  method CreateList(db: Store, name: string) returns (r: Result<ListRecord>)
    requires db.Valid()
    modifies db
    ensures db.Valid()
    ensures r.Err? <==> NameTaken(old(db.lists), name)
    ensures r.Err? ==> r.error == Conflict && unchanged(db)
    ensures r.Ok? ==> && r.value.id !in old(db.lists)
                      && r.value == ListRecord(r.value.id, name, map[])
                      && db.lists == old(db.lists)[r.value.id := name]
                      && db.items == old(db.items)
  {
    if NameTaken(db.lists, name) {
      return Err(Conflict);
    }
    var id := db.InsertList(name);
    AbsentListHasNoItems(old(db.lists), db.items, id);
    r := Ok(RecordOf(db.lists, db.items, id));
  }

  /** Tool `update_todo_list`: NotFound for an unknown id; no conflict check
      when the name is unchanged; otherwise Conflict if any list has the new
      name.  An existing list whose new name is free is renamed. */
  method UpdateList(db: Store, listId: int, name: string) returns (r: Result<ListRecord>)
    requires db.Valid()
    modifies db
    ensures db.Valid()
    ensures listId !in old(db.lists) ==> r == Err(NotFound)
    ensures listId in old(db.lists) && old(db.lists)[listId] == name ==> r.Ok?
    ensures listId in old(db.lists) && old(db.lists)[listId] != name ==>
              (r == Err(Conflict) <==> NameTaken(old(db.lists), name))
    ensures listId in old(db.lists) ==> r.Ok? || r == Err(Conflict)
    ensures r.Err? ==> unchanged(db)
    ensures r.Ok? ==> && db.lists == old(db.lists)[listId := name]
                      && db.items == old(db.items)
                      && r.value == ListRecord(listId, name, ItemsOf(db.items, listId))
  {
    if listId !in db.lists {
      return Err(NotFound);
    }
    if db.lists[listId] != name {
      if NameTaken(db.lists, name) {
        return Err(Conflict);
      }
    }
    RenameKeepsNamesUnique(db.lists, listId, name);
    db.lists := db.lists[listId := name];
    r := Ok(RecordOf(db.lists, db.items, listId));
  }

  /** Tool `delete_todo_list`: NotFound for an unknown id; Integrity when items
      still reference the list; otherwise that list alone is gone. */
  method DeleteList(db: Store, listId: int) returns (r: Result<int>)
    requires db.Valid()
    modifies db
    ensures db.Valid()
    ensures listId !in old(db.lists) ==> r == Err(NotFound)
    ensures listId in old(db.lists) ==>
              (r.Ok? <==> forall k | k in old(db.items) :: old(db.items)[k].todoListId != listId)
    ensures listId in old(db.lists) && r.Err? ==> r.error == Integrity
    ensures r.Err? ==> unchanged(db)
    ensures r.Ok? ==> && r.value == listId
                      && db.lists == old(db.lists) - {listId}
                      && db.items == old(db.items)
  {
    if listId !in db.lists {
      return Err(NotFound);
    }
    var ok := db.FlushListDelete(listId);
    if !ok {
      return Err(Integrity);
    }
    r := Ok(listId);
  }

  /** Resource `file:///todo/lists/{list_id}/items`: NotFound for an unknown
      list; otherwise exactly that list's items. */
  function GetItems(db: Store, listId: int): (r: Result<map<int, TodoItem>>)
    reads db
    ensures r.Err? <==> listId !in db.lists
    ensures r.Err? ==> r.error == NotFound
    ensures r.Ok? ==> forall k :: k in r.value <==> k in db.items && db.items[k].todoListId == listId
    ensures r.Ok? ==> forall k | k in r.value :: r.value[k] == db.items[k]
  {
    if listId !in db.lists then Err(NotFound) else Ok(ItemsOf(db.items, listId))
  }

  /** Resource `file:///todo/items/{item_id}`: the item with that id, or NotFound. */
  function GetItem(db: Store, itemId: int): (r: Result<ItemRecord>)
    reads db
    ensures r.Ok? <==> itemId in db.items
    ensures r.Ok? ==> r.value == ItemRecord(itemId, db.items[itemId])
    ensures r.Err? ==> r.error == NotFound
  {
    if itemId in db.items then Ok(ItemRecord(itemId, db.items[itemId])) else Err(NotFound)
  }

  /** Tool `create_todo_item`: NotFound for an unknown list; otherwise one new
      item with the given description, `completed` false unless given, and no
      due date, since the tool takes none. */
  method CreateItem(db: Store, listId: int, description: string, completed: bool := false) returns (r: Result<ItemRecord>)
    requires db.Valid()
    modifies db
    ensures db.Valid()
    ensures r.Err? <==> listId !in old(db.lists)
    ensures r.Err? ==> r.error == NotFound && unchanged(db)
    ensures r.Ok? ==> && r.value.id !in old(db.items)
                      && r.value.item == TodoItem(description, completed, None, listId)
                      && db.items == old(db.items)[r.value.id := r.value.item]
                      && db.lists == old(db.lists)
  {
    if listId !in db.lists {
      return Err(NotFound);
    }
    var item := NewTodoItem(Some(description), Some(completed), None, listId);
    var id := db.InsertItem(item);
    r := Ok(ItemRecord(id, item));
  }

  /** Tool `update_todo_item`: NotFound for an unknown id; otherwise only
      description and completed are overwritten, and the due date and the
      list keep their prior values. */
  method UpdateItem(db: Store, itemId: int, description: string, completed: bool) returns (r: Result<ItemRecord>)
    requires db.Valid()
    modifies db
    ensures db.Valid()
    ensures r.Err? <==> itemId !in old(db.items)
    ensures r.Err? ==> r.error == NotFound && unchanged(db)
    ensures r.Ok? ==> && r.value.id == itemId
                      && r.value.item == TodoItem(description, completed, old(db.items)[itemId].limitDate, old(db.items)[itemId].todoListId)
                      && db.items == old(db.items)[itemId := r.value.item]
                      && db.lists == old(db.lists)
  {
    if itemId !in db.items {
      return Err(NotFound);
    }
    var item := db.items[itemId];
    item := SetAttr(item, SetDescription(description));
    item := SetAttr(item, SetCompleted(completed));
    db.items := db.items[itemId := item];
    r := Ok(ItemRecord(itemId, item));
  }

  /** Tool `delete_todo_item`: NotFound for an unknown id; otherwise that item
      alone is gone. */
  method DeleteItem(db: Store, itemId: int) returns (r: Result<int>)
    requires db.Valid()
    modifies db
    ensures db.Valid()
    ensures r.Err? <==> itemId !in old(db.items)
    ensures r.Err? ==> r.error == NotFound && unchanged(db)
    ensures r.Ok? ==> && r.value == itemId
                      && db.items == old(db.items) - {itemId}
                      && db.lists == old(db.lists)
  {
    if itemId !in db.items {
      return Err(NotFound);
    }
    db.items := db.items - {itemId};
    r := Ok(itemId);
  }
}
