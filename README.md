# To-do store: a verified model

The system is a to-do service. Named lists hold items, and each item has a
description, a completion flag and an optional due date (`limit_date`). Two
front ends run the same rules over the same two tables:

- an HTTP API (`db/main.py`);
- a tool/resource server (`db/todo_mcp.py`).

The entities and their constraints are declared in `db/createdb.py`.

This project models those rules as one store held in memory:

- `Schema.dfy` (module `Schema`) holds the entity shapes, the column defaults
  and a `Store` class. The class holds the `todo_list` table (`id -> name`),
  the `todo_item` table (`id -> TodoItem`) and a fresh-key counter for each.
  `Store.Valid()` is the store invariant: list names are unique, every item's
  `todo_list_id` names an existing list, and every key is positive and below
  its table's next fresh key. The engine's own steps are methods of `Store`:
  inserting a row under a fresh key, and the flush of a list delete.
- `HttpApi.dfy` (module `HttpApi`) has one method per endpoint. Each takes the
  store as its `db` argument, as the source takes a session.
- `McpServer.dfy` (module `McpServer`) has one method per tool or resource. Its
  create and update take narrower field sets than the HTTP ones.
- `Scenarios.dfy` (module `Scenarios`) holds client methods. Each starts from
  an empty database and runs a sequence of calls (create then fetch, duplicate
  names, renames, defaults, round trips, deletes, the two updates). It then
  states what the caller observes, using only the operations' contracts.

Every operation is one atomic step. It returns `Ok(value)` or
`Err(NotFound | Conflict | Integrity)`, and a failed call leaves the store
unchanged:

- `NotFound` stands for the 404 `HTTPException`.
- `Conflict` stands for the 400 `HTTPException`.
- `Integrity` stands for a commit that the database refuses.

Reads are functions. Mutations are methods whose `modifies` clause is the
store, and whose `ensures` give the whole new content of both tables in terms
of the old.

In three places the code behaves differently from what one might expect of a
to-do service. The model follows the code:

- **Deleting a list.** One might expect deleting a list to delete its items
  too. The code declares the relationship without a cascade
  (`db/createdb.py:13`) and makes `todo_list_id` NOT NULL (`db/createdb.py:22`).
  On deleting a parent, the ORM's default is to clear the children's foreign key.
  The NOT NULL column refuses that, so the delete of a list that still has items
  fails and commits nothing. The model's `Store.FlushListDelete` returns that
  failure; the front ends report it as `Err(Integrity)`. A list that no item
  references is deleted. The model never deletes items as a side effect.
- **Order of items.** One might expect items to come back in creation order.
  The queries have no ordering, so results are maps keyed by id.
- **Which fields an update writes.** One might expect an update to replace
  every mutable field. The HTTP update does: it writes every field of the request
  body, and a field the client leaves out takes its schema default. So a body
  without `limit_date` clears the due date, and a body without `completed`
  resets it to false. The tool update writes only description and completed.
  `Scenarios.UpdatesDifferOnDueDate` states the difference.

## Model

| member | source | states |
|---|---|---|
| Schema.NewTodoItem | db/createdb.py:19-22 | the inserted row takes the given description, or "Sin descripción" when none is given. It takes the given `completed`, or false when none is given. The due date and the list id are stored as given |
| Schema.SetAttr | db/main.py:110-111 | assigning one column changes that column only; `todo_list_id` is never written |
| Schema.Assign | db/main.py:110-111 | the item after a sequence of column assignments, applied first to last; no sequence moves an item to another list |
| Schema.AssignUntouchedLimitDate | db/todo_mcp.py:109-110 | a sequence of assignments that never names `limit_date` leaves the due date as it was |
| Schema.ItemsOf | db/main.py:93 | an id is in the result exactly when it is an item whose `todo_list_id` is the list's id, with that item's columns |
| Schema.NameTaken | db/main.py:50 | the name pre-check: when it finds nothing, no list has that name; when it finds something, the name is some list's |
| Schema.RecordOf | db/createdb.py:13 | a returned list carries its key and its name; an id is among its items exactly when it is an item whose `todo_list_id` is the list's key, with that item's columns |
| Schema.AllLists | db/main.py:46 | one record per existing list, none for anything else, each with its name and its items |
| Schema.AbsentListHasNoItems | db/createdb.py:22 | while every item references an existing list, an id that names no list has no items |
| Schema.RenameKeepsNamesUnique | db/createdb.py:11 | setting a list's name keeps names unique when the name is the list's own or held by no list |
| Schema.Store.Valid | db/createdb.py:10-22 | the store invariant: no two lists share a name, every item's `todo_list_id` names an existing list and that list has the item among its items, and the next fresh key of each table is not in use |
| Schema.Store.constructor | db/createdb.py:34-36 | a freshly created database has both tables empty and satisfies the invariant |
| Schema.Store.InsertList | db/createdb.py:10-11 | inserting a list whose name is unused gives it a positive key never in use, adds exactly that row and keeps the invariant |
| Schema.Store.InsertItem | db/createdb.py:18-22 | inserting an item whose list exists gives it a positive key never in use, adds exactly that row and keeps the invariant |
| Schema.Store.FlushListDelete | db/createdb.py:13 | deleting a list succeeds exactly when no item references it, and then removes only that list; otherwise nothing changes |
| HttpApi.ModelDump | db/main.py:21-24 | the body's fields as three assignments, in the order description, completed, limit_date, each carrying the body's value for that field |
| HttpApi.GetLists | db/main.py:44-46 | every list, once each, with its name and its items |
| HttpApi.CreateList | db/main.py:48-56 | Conflict with the store unchanged exactly when some list has the name. Otherwise: one new list with that name, a fresh id and no items, and nothing else changes |
| HttpApi.GetList | db/main.py:58-63 | the list with that id, with its name and items. NotFound exactly when no list has it |
| HttpApi.UpdateList | db/main.py:65-76 | NotFound for an unknown id. Renaming to the list's own name always succeeds. Conflict exactly when another list holds the name, and then nothing changes. Every other call on an existing list succeeds; only that list's name changes and names stay unique |
| HttpApi.DeleteList | db/main.py:78-85 | NotFound for an unknown id. Integrity with nothing changed when items reference the list. Otherwise that list id is gone and nothing else changes |
| HttpApi.GetItems | db/main.py:89-93 | NotFound exactly when the list does not exist. Otherwise exactly the items whose `todo_list_id` is the list's id |
| HttpApi.CreateItem | db/main.py:95-103 | NotFound with nothing added when the list does not exist. Otherwise one new item with a fresh id, the body's fields and `todo_list_id` set to the list; `completed` defaults to false and `limit_date` to absent |
| HttpApi.ApplyFields | db/main.py:110-111 | the loop of `setattr` calls yields the item with the assignments applied in order, on the same list |
| HttpApi.ModelDumpOverwrites | db/main.py:110-111 | applying the whole body sets description, completed and limit_date to the body's values and keeps the list |
| HttpApi.UpdateItem | db/main.py:105-114 | NotFound for an unknown id. Otherwise description, completed and limit_date take the new values, and the id and `todo_list_id` are unchanged; no other row changes |
| HttpApi.DeleteItem | db/main.py:116-123 | NotFound for an unknown id. Otherwise only that item is removed |
| McpServer.GetAllLists | db/todo_mcp.py:9-12 | every list, once each, with its name and its items |
| McpServer.GetList | db/todo_mcp.py:15-21 | the list with that id, or NotFound exactly when there is none |
| McpServer.CreateList | db/todo_mcp.py:26-36 | Conflict with nothing changed for a name in use. Otherwise one new list, which keeps names unique |
| McpServer.UpdateList | db/todo_mcp.py:39-53 | NotFound for an unknown id. No conflict when the name is unchanged. Otherwise Conflict exactly when some list has the new name. Every other call on an existing list succeeds, and only that list's name changes |
| McpServer.DeleteList | db/todo_mcp.py:56-64 | NotFound for an unknown id. Integrity when items reference the list. Otherwise that list is removed and nothing else changes |
| McpServer.GetItems | db/todo_mcp.py:69-75 | NotFound exactly when the list does not exist. Otherwise exactly that list's items |
| McpServer.GetItem | db/todo_mcp.py:78-84 | the item with that id, or NotFound exactly when there is none |
| McpServer.CreateItem | db/todo_mcp.py:89-99 | NotFound for a missing list. Otherwise one new item with the description, `completed` false unless given, and no due date |
| McpServer.UpdateItem | db/todo_mcp.py:102-113 | NotFound for an unknown id. Otherwise only description and completed are overwritten; `limit_date` and `todo_list_id` keep their values |
| McpServer.DeleteItem | db/todo_mcp.py:116-125 | NotFound for an unknown id. Otherwise only that item is removed |
| Scenarios.CreateThenGet | db/main.py:48-63 | a list created and then fetched by its new id has the given name and no items |
| Scenarios.DuplicateName | db/main.py:50-51 | creating a second list with a name in use fails with Conflict on both front ends |
| Scenarios.UnknownId | db/main.py:58-63 | after one create, fetching succeeds exactly for the returned id; every other id is NotFound |
| Scenarios.RenameRules | db/main.py:65-76 | renaming a list to another list's name is a Conflict; renaming it to its own name succeeds; renaming it to a name no list holds succeeds |
| Scenarios.ItemDefaults | db/main.py:95-103 | creating an item under a missing list is NotFound. An item created with only a description is not completed and has no due date, on both front ends |
| Scenarios.GroceriesRoundTrip | db/main.py:89-103 | create list "Groceries", add "eggs", list its items: exactly one item, described "eggs" |
| Scenarios.DeleteRules | db/main.py:78-85 | an empty list is deleted and is then NotFound; a list with an item is refused with Integrity and keeps its item |
| Scenarios.UpdateFrontEnds | db/todo_mcp.py:102-113 | on items with a due date, the HTTP update overwrites all three fields and the tool update keeps the due date |
| Scenarios.UpdatesDifferOnDueDate | db/todo_mcp.py:109-110 | a body without `limit_date` clears the due date through the HTTP update; the tool's two assignments never touch it |

## Left out

- FastAPI routing, Pydantic validation and serialisation, and the response schemas. The request body of the item endpoints is kept only as `HttpApi.TodoItemSchema` with its two defaults.
- HTTP status codes and message strings: the two exceptions become `NotFound` and `Conflict`.
- The `root` endpoint (`db/main.py:126-130`): it only returns a fixed greeting.
- Tool and resource registration, and `mcp.run()`: these belong to the transport.
- `get_db`, `SessionLocal`, `commit`/`refresh`, the SQLite engine and `create_all`: these are I/O and library plumbing. Each operation is one atomic step on `Store`, and a failed one commits nothing.
- Concurrency: two simultaneous creates with the same name are arbitrated by the database's unique constraint, which a sequential model cannot show.
- Schema.Store.InsertList: the commit-time refusal of a duplicate name by the unique constraint is not an outcome here; the method requires the name to be unused, which every caller's pre-check ensures.
- Schema.Store.FlushListDelete: that a delete of a list with items fails rests on the ORM's default handling of children with a non-null key. The code does not show that handling; the model chooses the outcome that keeps every reference valid, and never deletes items in cascade.
- Key assignment: SQLite may reuse the largest key of a deleted row, but the model's counters never reuse a key. The model only promises that a new key is not in use.
- Integer width of ids: ids and the key counters are unbounded integers, so every id outside a table gives NotFound. In the running service an id outside SQLite's 64-bit INTEGER range never reaches the lookup: request validation rejects it or the database driver raises an overflow error, so the answer is not a 404. The model has no upper bound on keys and does not model that rejection.
- Calendar validity of dates: `limit_date` is an opaque `Date` value.
- Ordering of returned lists and items: results are maps keyed by id.
- `completed` is nullable in the table but both front ends always supply a boolean, so it is a `bool`. The description default is reachable only through `Schema.NewTodoItem`, since both front ends always supply a description.
