/** The two tables of the to-do store and the rules they obey.

    `TodoList` rows are `id -> name`; `TodoItem` rows are `id -> TodoItem`, the
    item's columns without its primary key.  A `Store` holds both tables and the
    counters the engine draws fresh primary keys from.  Every operation of the
    two front ends is one atomic step on a `Store`. */
module Schema {

  datatype Option<+T> = None | Some(value: T)

  /** A `limit_date` value.  It is treated as opaque: calendar validity is not modelled. */
  datatype Date = Date(year: int, month: int, day: int)

  /** The non-key columns of one `todo_item` row. */
  datatype TodoItem = TodoItem(description: string, completed: bool, limitDate: Option<Date>, todoListId: int)

  /** A list as the operations return it: its key, its name and the items that reference it. */
  datatype ListRecord = ListRecord(id: int, name: string, items: map<int, TodoItem>)

  /** An item as the operations return it: its key and its columns. */
  datatype ItemRecord = ItemRecord(id: int, item: TodoItem)

  /** `NotFound` is the 404 raised for a missing list or item, `Conflict` the 400
      raised for a list name already in use, `Integrity` a commit the database
      refuses (see `Store.FlushListDelete`). */
  datatype Error = NotFound | Conflict | Integrity

  datatype Result<+T> = Ok(value: T) | Err(error: Error)

  /** The declared default of `todo_item.description`. */
  const DefaultDescription: string := "Sin descripción"

  /** The row the ORM inserts for `TodoItem(...)`: a column left out of the
      constructor call (`None` here) takes its declared default.  `limit_date`
      is nullable and has no default, so it is stored as given. */
  function NewTodoItem(description: Option<string>, completed: Option<bool>, limitDate: Option<Date>, todoListId: int): (item: TodoItem)
    ensures description.None? ==> item.description == DefaultDescription
    ensures description.Some? ==> item.description == description.value
    ensures completed.None? ==> !item.completed
    ensures completed.Some? ==> item.completed == completed.value
    ensures item.limitDate == limitDate && item.todoListId == todoListId
  {
    TodoItem(
      match description case Some(d) => d case None => DefaultDescription,
      match completed case Some(c) => c case None => false,
      limitDate,
      todoListId)
  }

  /** One `setattr(item, key, value)` on a mutable column of `TodoItem`. */
  datatype Assignment =
    | SetDescription(description: string)
    | SetCompleted(completed: bool)
    | SetLimitDate(limitDate: Option<Date>)

  /** The key an assignment writes. */
  function Key(a: Assignment): (key: string) {
    match a
    case SetDescription(_) => "description"
    case SetCompleted(_) => "completed"
    case SetLimitDate(_) => "limit_date"
  }

  /** Applies one assignment: the named column takes the value, the others keep theirs. */
  function SetAttr(item: TodoItem, a: Assignment): (r: TodoItem)
    ensures r.todoListId == item.todoListId
    ensures r.description == (if a.SetDescription? then a.description else item.description)
    ensures r.completed == (if a.SetCompleted? then a.completed else item.completed)
    ensures r.limitDate == (if a.SetLimitDate? then a.limitDate else item.limitDate)
  {
    match a
    case SetDescription(d) => item.(description := d)
    case SetCompleted(c) => item.(completed := c)
    case SetLimitDate(l) => item.(limitDate := l)
  }

  /** The item after the assignments are applied one after another, first to
      last.  No sequence of assignments moves an item to another list:
      `todo_list_id` is not one of the columns an assignment writes. */
  function Assign(item: TodoItem, asgs: seq<Assignment>): (r: TodoItem)
    ensures r.todoListId == item.todoListId
    decreases |asgs|
  {
    if asgs == [] then item else SetAttr(Assign(item, asgs[..|asgs| - 1]), asgs[|asgs| - 1])
  }

  /** Applying one more assignment after a sequence of them. */
  lemma AssignSnoc(item: TodoItem, asgs: seq<Assignment>, a: Assignment)
    ensures Assign(item, asgs + [a]) == SetAttr(Assign(item, asgs), a)
  {
    assert (asgs + [a])[..|asgs|] == asgs;
  }

  /** A column that no assignment writes keeps its value. */
  lemma {:induction false} AssignUntouchedLimitDate(item: TodoItem, asgs: seq<Assignment>)
    requires forall i | 0 <= i < |asgs| :: !asgs[i].SetLimitDate?
    ensures Assign(item, asgs).limitDate == item.limitDate
    decreases |asgs|
  {
    if asgs != [] {
      AssignUntouchedLimitDate(item, asgs[..|asgs| - 1]);
    }
  }

  /** `name` is unique across all lists (`unique=True`). */
  ghost predicate NamesUnique(lists: map<int, string>) {
    forall a, b | a in lists && b in lists && lists[a] == lists[b] :: a == b
  }

  /** Some list is called `name`: what the pre-check
      `query(TodoList).filter(TodoList.name == name).first()` finds. */
  predicate NameTaken(lists: map<int, string>, name: string): (taken: bool)
    ensures taken ==> name in lists.Values
    ensures !taken ==> forall id | id in lists :: lists[id] != name
  {
    exists id | id in lists :: lists[id] == name
  }

  /** Every item's non-null `todo_list_id` names an existing list. */
  ghost predicate ReferencesResolve(lists: map<int, string>, items: map<int, TodoItem>) {
    forall k | k in items :: items[k].todoListId in lists
  }

  /** The rows of `todo_item` whose `todo_list_id` is `listId`, with their keys. */
  function ItemsOf(items: map<int, TodoItem>, listId: int): (r: map<int, TodoItem>)
    ensures forall k :: k in r <==> k in items && items[k].todoListId == listId
    ensures forall k | k in r :: r[k] == items[k]
  {
    map k | k in items && items[k].todoListId == listId :: items[k]
  }

  /** The list with key `id` as it is returned, its `items` relationship filled in. */
  function RecordOf(lists: map<int, string>, items: map<int, TodoItem>, id: int): (r: ListRecord)
    requires id in lists
    ensures r.id == id && r.name == lists[id]
    ensures forall k :: k in r.items <==> k in items && items[k].todoListId == id
    ensures forall k | k in r.items :: r.items[k] == items[k]
  {
    ListRecord(id, lists[id], ItemsOf(items, id))
  }

  /** Every list, each with its items, keyed by list id: one record per list
      and no record for anything else. */
  function AllLists(lists: map<int, string>, items: map<int, TodoItem>): (r: map<int, ListRecord>)
    ensures r.Keys == lists.Keys
    ensures forall id | id in r :: r[id].id == id && r[id].name == lists[id] && r[id].items == ItemsOf(items, id)
  {
    map id | id in lists :: RecordOf(lists, items, id)
  }

  /** A list id that is not in the table has no items, as long as every item
      references an existing list. */
  lemma AbsentListHasNoItems(lists: map<int, string>, items: map<int, TodoItem>, id: int)
    requires ReferencesResolve(lists, items) && id !in lists
    ensures ItemsOf(items, id) == map[]
  {
    assert forall k | k in items :: items[k].todoListId != id;
    assert ItemsOf(items, id).Keys == {};
  }

  /** Setting a list's name keeps names unique when the name is the list's
      own or held by no list. */
  lemma RenameKeepsNamesUnique(lists: map<int, string>, id: int, name: string)
    requires NamesUnique(lists) && id in lists
    requires lists[id] == name || !NameTaken(lists, name)
    ensures NamesUnique(lists[id := name])
  {
  }

  /** A store: the two tables and the next fresh key of each. */
  class Store {
    var lists: map<int, string>
    var items: map<int, TodoItem>
    var nextListId: int
    var nextItemId: int

    /** Names are unique, every item references an existing list, and every
        key is positive and below its table's next fresh key. */
    ghost predicate Valid()
      reads this
      ensures Valid() ==> nextListId !in lists && nextItemId !in items
      ensures Valid() ==> forall a, b | a in lists && b in lists && a != b :: lists[a] != lists[b]
      ensures Valid() ==> forall k | k in items :: ItemsOf(items, items[k].todoListId) != map[] && items[k].todoListId in lists
    {
      && NamesUnique(lists)
      && ReferencesResolve(lists, items)
      && 0 < nextListId && 0 < nextItemId
      && (forall id | id in lists :: 0 < id < nextListId)
      && (forall id | id in items :: 0 < id < nextItemId)
    }

    /** A freshly created database: both tables empty. */
    constructor ()
      ensures Valid()
      ensures lists == map[] && items == map[]
    {
      lists, items := map[], map[];
      nextListId, nextItemId := 1, 1;
    }

    /** `db.add(TodoList(name=...))` and commit: the engine assigns a key never
        in use.  The caller's pre-check meets the unique constraint on `name`. */
    method InsertList(name: string) returns (id: int)
      requires Valid()
      requires !NameTaken(lists, name)
      modifies this
      ensures Valid()
      ensures 0 < id && id !in old(lists)
      ensures lists == old(lists)[id := name] && items == old(items)
    {
      id := nextListId;
      lists := lists[id := name];
      nextListId := nextListId + 1;
    }

    /** `db.add(TodoItem(...))` and commit: the engine assigns a key never in
        use.  The caller's existence check meets the foreign key. */
    method InsertItem(item: TodoItem) returns (id: int)
      requires Valid()
      requires item.todoListId in lists
      modifies this
      ensures Valid()
      ensures 0 < id && id !in old(items)
      ensures items == old(items)[id := item] && lists == old(lists)
    {
      id := nextItemId;
      items := items[id := item];
      nextItemId := nextItemId + 1;
    }

    /** `db.delete(lista)` and commit.  The relationship declares no cascade, so
        the ORM detaches the list's items by clearing their `todo_list_id`,
        which is NOT NULL: the flush fails and nothing is committed.  A list
        that no item references is removed. */
    method FlushListDelete(id: int) returns (ok: bool)
      requires Valid()
      requires id in lists
      modifies this
      ensures Valid()
      ensures ok <==> forall k | k in old(items) :: old(items)[k].todoListId != id
      ensures ok ==> lists == old(lists) - {id} && items == old(items)
      ensures !ok ==> unchanged(this)
    {
      ok := forall k | k in items :: items[k].todoListId != id;
      if ok {
        lists := lists - {id};
      }
    }
  }
}
