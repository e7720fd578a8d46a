/** Clients of the two front ends: each method starts from a freshly created
    database, runs a sequence of calls and states what the caller observes.
    They show that the contracts of the operations are strong enough to
    predict whole interactions. */
module Scenarios {
  import opened Schema
  import HttpApi
  import McpServer

  /** A created list, fetched by the id it was given, has that name and no items. */
  method CreateThenGet(name: string) returns (fetched: Result<ListRecord>)
    ensures fetched.Ok? && fetched.value.name == name && fetched.value.items == map[]
  {
    var db := new Store();
    var created := HttpApi.CreateList(db, name);
    fetched := HttpApi.GetList(db, created.value.id);
  }

  /** Creating a list under a name already in use fails with Conflict, on
      either front end. */
  method DuplicateName(name: string) returns (viaHttp: Result<ListRecord>, viaMcp: Result<ListRecord>)
    ensures viaHttp == Err(Conflict) && viaMcp == Err(Conflict)
  {
    var db := new Store();
    var first := HttpApi.CreateList(db, name);
    viaHttp := HttpApi.CreateList(db, name);
    viaMcp := McpServer.CreateList(db, name);
  }

  /** Only the id a create returned names a list; any other id is NotFound. */
  method UnknownId(name: string, id: int) returns (createdId: int, fetched: Result<ListRecord>)
    ensures id == createdId <==> fetched.Ok?
    ensures id != createdId ==> fetched == Err(NotFound)
  {
    var db := new Store();
    var created := HttpApi.CreateList(db, name);
    createdId := created.value.id;
    fetched := HttpApi.GetList(db, id);
  }

  /** Renaming a list to another list's name fails with Conflict; renaming it
      to its own name succeeds; renaming it to a name no list holds succeeds. */
  method RenameRules(a: string, b: string, c: string) returns (taken: Result<ListRecord>, own: Result<ListRecord>, moved: Result<ListRecord>)
    requires a != b && c != a && c != b
    ensures taken == Err(Conflict)
    ensures own.Ok? && own.value.name == a
    ensures moved.Ok? && moved.value.name == c
  {
    var db := new Store();
    var listA := HttpApi.CreateList(db, a);
    var listB := HttpApi.CreateList(db, b);
    assert db.lists[listB.value.id] == b && listB.value.id != listA.value.id;
    taken := HttpApi.UpdateList(db, listA.value.id, b);
    own := McpServer.UpdateList(db, listA.value.id, a);
    moved := HttpApi.UpdateList(db, listA.value.id, c);
  }

  /** An item under a missing list is NotFound; an item created with only a
      description is not completed and has no due date. */
  method ItemDefaults(listName: string, description: string) returns (missing: Result<ItemRecord>, viaHttp: Result<ItemRecord>, viaMcp: Result<ItemRecord>)
    ensures missing == Err(NotFound)
    ensures viaHttp.Ok? && viaHttp.value.item.description == description
    ensures !viaHttp.value.item.completed && viaHttp.value.item.limitDate == None
    ensures viaMcp.Ok? && viaMcp.value.item.description == description
    ensures !viaMcp.value.item.completed && viaMcp.value.item.limitDate == None
    ensures viaHttp.value.id != viaMcp.value.id
  {
    var db := new Store();
    var list := HttpApi.CreateList(db, listName);
    missing := HttpApi.CreateItem(db, list.value.id + 1, HttpApi.TodoItemSchema(description));
    viaHttp := HttpApi.CreateItem(db, list.value.id, HttpApi.TodoItemSchema(description));
    viaMcp := McpServer.CreateItem(db, list.value.id, description);
  }

  /** Create list "Groceries", create item "eggs" under it, list its items:
      exactly one item, described "eggs". */
  method GroceriesRoundTrip() returns (items: Result<map<int, TodoItem>>)
    ensures items.Ok? && |items.value| == 1
    ensures forall k | k in items.value :: items.value[k].description == "eggs"
  {
    var db := new Store();
    var list := HttpApi.CreateList(db, "Groceries");
    var eggs := HttpApi.CreateItem(db, list.value.id, HttpApi.TodoItemSchema("eggs"));
    items := HttpApi.GetItems(db, list.value.id);
    assert items.value == map[eggs.value.id := eggs.value.item];
  }

  /** A list no item references is deleted and then unknown; a list that still
      has an item is refused and stays, item included. */
  method DeleteRules(emptyName: string, busyName: string)
    returns (deleted: Result<int>, afterDelete: Result<ListRecord>, refused: Result<int>, stillThere: Result<map<int, TodoItem>>)
    requires emptyName != busyName
    ensures deleted.Ok? && afterDelete == Err(NotFound)
    ensures refused == Err(Integrity)
    ensures stillThere.Ok? && |stillThere.value| == 1
  {
    var db := new Store();
    var empty := HttpApi.CreateList(db, emptyName);
    var busy := HttpApi.CreateList(db, busyName);
    var item := HttpApi.CreateItem(db, busy.value.id, HttpApi.TodoItemSchema("task"));
    deleted := HttpApi.DeleteList(db, empty.value.id);
    afterDelete := HttpApi.GetList(db, empty.value.id);
    refused := McpServer.DeleteList(db, busy.value.id);
    stillThere := McpServer.GetItems(db, busy.value.id);
    assert stillThere.value == map[item.value.id := item.value.item];
  }

  /** The two update endpoints on an item with a due date: the HTTP one
      overwrites all three fields, the tool keeps the due date. */
  method UpdateFrontEnds(due: Date, newDue: Date) returns (viaHttp: Result<ItemRecord>, viaMcp: Result<ItemRecord>)
    ensures viaHttp.Ok? && viaHttp.value.item.description == "new desc"
    ensures viaHttp.value.item.completed && viaHttp.value.item.limitDate == Some(newDue)
    ensures viaMcp.Ok? && viaMcp.value.item.description == "other desc"
    ensures !viaMcp.value.item.completed && viaMcp.value.item.limitDate == Some(due)
  {
    var db := new Store();
    var list := HttpApi.CreateList(db, "Work");
    var first := HttpApi.CreateItem(db, list.value.id, HttpApi.TodoItemSchema("a", limitDate := Some(due)));
    var second := HttpApi.CreateItem(db, list.value.id, HttpApi.TodoItemSchema("b", limitDate := Some(due)));
    viaHttp := HttpApi.UpdateItem(db, first.value.id, HttpApi.TodoItemSchema("new desc", true, Some(newDue)));
    viaMcp := McpServer.UpdateItem(db, second.value.id, "other desc", false);
  }

  /** A body that leaves out `limit_date` clears the due date when sent to the
      HTTP update, whereas the tool's two assignments never touch it. */
  lemma UpdatesDifferOnDueDate(item: TodoItem, description: string, completed: bool)
    ensures Assign(item, HttpApi.ModelDump(HttpApi.TodoItemSchema(description, completed))).limitDate == None
    ensures Assign(item, [SetDescription(description), SetCompleted(completed)]).limitDate == item.limitDate
  {
    HttpApi.ModelDumpOverwrites(item, HttpApi.TodoItemSchema(description, completed));
    AssignUntouchedLimitDate(item, [SetDescription(description), SetCompleted(completed)]);
  }
}
