/** The HTTP front end (db/main.py): one method per endpoint, each one atomic
    step on the store `db`.  A raised 404 is `Err(NotFound)`, a raised 400 is
    `Err(Conflict)`; a failed call commits nothing. */
module HttpApi {
  import opened Schema

  /** The request body of the item endpoints, with its declared defaults:
      `completed` is false and `limit_date` absent when the client omits them. */
  datatype TodoItemSchema = TodoItemSchema(description: string, completed: bool := false, limitDate: Option<Date> := None)

  /** `item_data.model_dump().items()`: the body's fields as key/value pairs, in
      declaration order. */
  function ModelDump(data: TodoItemSchema): (fields: seq<Assignment>)
    ensures |fields| == 3
    ensures fields[0].SetDescription? && fields[0].description == data.description
    ensures fields[1].SetCompleted? && fields[1].completed == data.completed
    ensures fields[2].SetLimitDate? && fields[2].limitDate == data.limitDate
    ensures forall i | 0 <= i < |fields| :: Key(fields[i]) == ["description", "completed", "limit_date"][i]
  {
    [SetDescription(data.description), SetCompleted(data.completed), SetLimitDate(data.limitDate)]
  }

  /** GET /lists: every list with its items. */
  function GetLists(db: Store): (r: map<int, ListRecord>)
    reads db
    ensures r.Keys == db.lists.Keys
    ensures forall id | id in r :: r[id] == ListRecord(id, db.lists[id], ItemsOf(db.items, id))
  {
    AllLists(db.lists, db.items)
  }

  /** POST /lists: refuses a name some list already has; otherwise creates one
      list with that name, a fresh id and no items. */
  method CreateList(db: Store, name: string) returns (r: Result<ListRecord>)
    requires db.Valid()
    modifies db
    ensures db.Valid()
    ensures r.Err? <==> NameTaken(old(db.lists), name)
    ensures r.Err? ==> r.error == Conflict && unchanged(db)
    ensures r.Ok? ==> && r.value.id !in old(db.lists)
                      && r.value == ListRecord(r.value.id, name, map[])
                      && db.lists == old(db.lists)[r.value.id := name]
                      && db.items == old(db.items)
  {
    if NameTaken(db.lists, name) {
      return Err(Conflict);
    }
    var id := db.InsertList(name);
    AbsentListHasNoItems(old(db.lists), db.items, id);
    r := Ok(RecordOf(db.lists, db.items, id));
  }

  /** GET /lists/{list_id}: the list with that id, or NotFound. */
  function GetList(db: Store, listId: int): (r: Result<ListRecord>)
    reads db
    ensures r.Ok? <==> listId in db.lists
    ensures r.Ok? ==> r.value == ListRecord(listId, db.lists[listId], ItemsOf(db.items, listId))
    ensures r.Err? ==> r.error == NotFound
  {
    if listId in db.lists then Ok(RecordOf(db.lists, db.items, listId)) else Err(NotFound)
  }

  /** PUT /lists/{list_id}: NotFound for an unknown id; Conflict exactly when
      another list holds the new name (the list's own name never conflicts);
      otherwise only that list's name changes. */
  method UpdateList(db: Store, listId: int, name: string) returns (r: Result<ListRecord>)
    requires db.Valid()
    modifies db
    ensures db.Valid()
    ensures listId !in old(db.lists) ==> r == Err(NotFound)
    ensures r == Err(Conflict) <==>
              listId in old(db.lists) && exists other | other in old(db.lists) && other != listId :: old(db.lists)[other] == name
    ensures listId in old(db.lists) && old(db.lists)[listId] == name ==> r.Ok?
    ensures listId in old(db.lists) ==> r.Ok? || r == Err(Conflict)
    ensures r.Err? ==> unchanged(db)
    ensures r.Ok? ==> && db.lists == old(db.lists)[listId := name]
                      && db.items == old(db.items)
                      && r.value == ListRecord(listId, name, ItemsOf(db.items, listId))
  {
    if listId !in db.lists {
      return Err(NotFound);
    }
    if db.lists[listId] != name {
      if NameTaken(db.lists, name) {
        return Err(Conflict);
      }
    }
    RenameKeepsNamesUnique(db.lists, listId, name);
    db.lists := db.lists[listId := name];
    r := Ok(RecordOf(db.lists, db.items, listId));
  }

  /** DELETE /lists/{list_id}: NotFound for an unknown id; Integrity when items
      still reference the list (no cascade is declared); otherwise that list
      alone is gone. */
  method DeleteList(db: Store, listId: int) returns (r: Result<int>)
    requires db.Valid()
    modifies db
    ensures db.Valid()
    ensures listId !in old(db.lists) ==> r == Err(NotFound)
    ensures listId in old(db.lists) ==>
              (r.Ok? <==> forall k | k in old(db.items) :: old(db.items)[k].todoListId != listId)
    ensures listId in old(db.lists) && r.Err? ==> r.error == Integrity
    ensures r.Err? ==> unchanged(db)
    ensures r.Ok? ==> && r.value == listId
                      && db.lists == old(db.lists) - {listId}
                      && db.items == old(db.items)
  {
    if listId !in db.lists {
      return Err(NotFound);
    }
    var ok := db.FlushListDelete(listId);
    if !ok {
      return Err(Integrity);
    }
    r := Ok(listId);
  }

  /** GET /lists/{list_id}/items: NotFound for an unknown list; otherwise
      exactly the items whose `todo_list_id` is `listId`. */
  function GetItems(db: Store, listId: int): (r: Result<map<int, TodoItem>>)
    reads db
    ensures r.Err? <==> listId !in db.lists
    ensures r.Err? ==> r.error == NotFound
    ensures r.Ok? ==> forall k :: k in r.value <==> k in db.items && db.items[k].todoListId == listId
    ensures r.Ok? ==> forall k | k in r.value :: r.value[k] == db.items[k]
  {
    if listId !in db.lists then Err(NotFound) else Ok(ItemsOf(db.items, listId))
  }

  /** POST /lists/{list_id}/items: NotFound and nothing added for an unknown
      list; otherwise one new item under that list with the body's fields. */
  method CreateItem(db: Store, listId: int, data: TodoItemSchema) returns (r: Result<ItemRecord>)
    requires db.Valid()
    modifies db
    ensures db.Valid()
    ensures r.Err? <==> listId !in old(db.lists)
    ensures r.Err? ==> r.error == NotFound && unchanged(db)
    ensures r.Ok? ==> && r.value.id !in old(db.items)
                      && r.value.item == TodoItem(data.description, data.completed, data.limitDate, listId)
                      && db.items == old(db.items)[r.value.id := r.value.item]
                      && db.lists == old(db.lists)
  {
    if listId !in db.lists {
      return Err(NotFound);
    }
    var item := NewTodoItem(Some(data.description), Some(data.completed), data.limitDate, listId);
    var id := db.InsertItem(item);
    r := Ok(ItemRecord(id, item));
  }

  /** The `for key, value in ...: setattr(item, key, value)` loop: the fields
      are written one after another. */
  method ApplyFields(item: TodoItem, fields: seq<Assignment>) returns (r: TodoItem)
    ensures r == Assign(item, fields)
    ensures r.todoListId == item.todoListId
  {
    r := item;
    for i := 0 to |fields|
      invariant r == Assign(item, fields[..i])
    {
      AssignSnoc(item, fields[..i], fields[i]);
      assert fields[..i + 1] == fields[..i] + [fields[i]];
      r := SetAttr(r, fields[i]);
    }
    assert fields[..|fields|] == fields;
  }

  /** Writing every field of the body overwrites description, completed and
      limit_date, whatever they were, and keeps the item's list. */
  lemma ModelDumpOverwrites(item: TodoItem, data: TodoItemSchema)
    ensures Assign(item, ModelDump(data)) == TodoItem(data.description, data.completed, data.limitDate, item.todoListId)
  {
    var f := ModelDump(data);
    AssignSnoc(item, [], f[0]);
    AssignSnoc(item, [f[0]], f[1]);
    AssignSnoc(item, [f[0], f[1]], f[2]);
    assert [f[0]] + [f[1]] + [f[2]] == f;
  }

  /** PUT /items/{item_id}: NotFound for an unknown id; otherwise description,
      completed and limit_date all take the body's values (an omitted field
      takes its schema default), and the item keeps its id and list. */
  method UpdateItem(db: Store, itemId: int, data: TodoItemSchema) returns (r: Result<ItemRecord>)
    requires db.Valid()
    modifies db
    ensures db.Valid()
    ensures r.Err? <==> itemId !in old(db.items)
    ensures r.Err? ==> r.error == NotFound && unchanged(db)
    ensures r.Ok? ==> && r.value.id == itemId
                      && r.value.item == TodoItem(data.description, data.completed, data.limitDate, old(db.items)[itemId].todoListId)
                      && db.items == old(db.items)[itemId := r.value.item]
                      && db.lists == old(db.lists)
  {
    if itemId !in db.items {
      return Err(NotFound);
    }
    var item := ApplyFields(db.items[itemId], ModelDump(data));
    ModelDumpOverwrites(db.items[itemId], data);
    db.items := db.items[itemId := item];
    r := Ok(ItemRecord(itemId, item));
  }

  /** DELETE /items/{item_id}: NotFound for an unknown id; otherwise that item
      alone is gone. */
  method DeleteItem(db: Store, itemId: int) returns (r: Result<int>)
    requires db.Valid()
    modifies db
    ensures db.Valid()
    ensures r.Err? <==> itemId !in old(db.items)
    ensures r.Err? ==> r.error == NotFound && unchanged(db)
    ensures r.Ok? ==> && r.value == itemId
                      && db.items == old(db.items) - {itemId}
                      && db.lists == old(db.lists)
  {
    if itemId !in db.items {
      return Err(NotFound);
    }
    db.items := db.items - {itemId};
    r := Ok(itemId);
  }
}
