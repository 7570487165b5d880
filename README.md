# Task policy layer of task-api-parse-lab, in Dafny

This project models the Cloud Code of `src/cloud/main.js`: a task-management
backend on top of Parse Server, with one entity, `Task`. It covers:

- the `beforeSave("Task")` hook. It rejects a save that has no caller. On a new
  object it assigns the owner, the owner-only access rule and the `status` /
  `priority` defaults. It rejects an owner write on an existing object, then
  checks `priority`, `status` and the type of `dueDate`, in that order;
- the handlers `createTask`, `myTasks`, `toggleTaskDone`, `deleteTask`,
  `tasksByStatus` and `setTaskStatus`;
- the pagination arithmetic of `tasksByStatus`: the `limit` and `skip`
  clamps, the page window, the total count and the `nextSkip` rule.

Modules:

- `TaskModel` (task_model.dfy) holds the attribute values, the `Task` record,
  the error kinds with their messages, and the gate as the pure function
  `Gate`.
- `Paging` (paging.dfy) holds the clamps, `Page`, `NextSkip`, and `Walk`.
  `Walk` follows `nextSkip` from page to page.
- `TaskIndex` (task_index.dfy) models the persistence collaborator as the
  handlers use it. The stored ids are kept newest first by `createdAt`. A
  query (`equalTo("owner")`, `equalTo("status")`, `descending("createdAt")`)
  is a filter of that sequence, and `count()` is the size of the matching set.
- `TaskStore` (task_store.dfy) holds the class `Store`, with the fields
  `tasks: map<Id, Task>`, `order`, `nextId` and a ghost record `owners` of the
  owner each id was created with. Every handler is a method. Every save goes
  through `Gate`; `destroy` runs no hook, so `DeleteTask` does not call it.
  Every lookup is scoped to `owner == caller`. A failed check leaves the store
  as it was.

`Store.Valid()` is the invariant every method keeps. It says:
- `order` indexes exactly the stored ids, newest first;
- every stored Task has an owner, the owner-only access rule, and valid
  `priority`, `status` and `dueDate`;
- every stored owner equals the owner recorded when its id was created.

Each method also ensures that the `owners` record is only ever extended. So
no sequence of operations changes the owner of a stored Task.

Where the code and the documented behaviour differ, the model follows the code:

- A `limit` of 0 gives 10, not 1, because `Number(0) || 10` is 10 and that
  comes before the clamp. A negative `limit` gives 1.
- The gate tests `task.dirty("owner")`, so on an existing object any write of
  `owner` is rejected, even a write of the same owner.
- The gate checks only that `dueDate` is a `Date`, and that includes an
  invalid `Date`. Only `createTask` rejects an unparsable date string.
- The gate does not check `title`. Only `createTask` requires a non-empty
  string title.
- `createTask` ignores a falsy `priority`, `status` or `dueDate`, such as `""`
  or `0`, so a falsy `priority` or `status` takes its default.

Nothing here is executed; the properties are proved by the Dafny verifier.

## Model

| member | source | states |
|---|---|---|
| `TaskModel.Gate` | src/cloud/main.js:11-59 | "Not authorized" exactly when there is no caller, whatever the object. "Cannot change owner" exactly when there is a caller and an owner write on an existing object, before any field check. After those, the first failing check decides the error: a bad `priority` gives "Invalid priority", otherwise a bad `status` gives "Invalid status", otherwise a `dueDate` that is not a Date gives "dueDate must be a Date". Each field error also implies that its own check failed and the earlier ones passed. A success has `priority` and `status` absent or in their allowed lists and `dueDate` absent or a Date. On a new object a success sets owner and the access rule to the caller and defaults `status` to "todo" and `priority` to "med", changing nothing else. On an existing object a success writes the object unchanged. |
| `TaskModel.MessagesDistinct` | src/cloud/main.js:13-194 | `Message` gives each error kind the string the code throws for it (lines 13, 33, 40, 48, 56, 67, 79, 124, 125, 156), plus the framework's "Object not found." for a failed lookup. Two messages are equal exactly when the error kinds are equal. |
| `TaskModel.GateStable` | src/cloud/main.js:31-58 | When a record the gate accepted is saved again with no edits, the gate accepts it and returns it unchanged. |
| `Paging.NumberOr` | src/cloud/main.js:155-159 | `Number(x) \|\| d`: the result is the numeric parameter when that is a non-zero integer, and the default otherwise (absent, NaN or 0). |
| `Paging.ClampLimit` | src/cloud/main.js:155-158 | The limit is always in [1, 50]. Absent, NaN and 0 give 10. A negative limit gives 1, one above 50 gives 50, and values in [1, 50] are kept. |
| `Paging.ClampSkip` | src/cloud/main.js:155-159 | The skip is always >= 0. A non-negative integer is kept, and anything else gives 0. |
| `Paging.Page` | src/cloud/main.js:170-172 | The page holds `min(lim, max(total - sk, 0))` items, and item k is match `sk + k`. |
| `Paging.NextSkip` | src/cloud/main.js:183 | `nextSkip` is present exactly when `sk + returned < total`, and then it equals `sk + returned`. |
| `Paging.NextSkipAfterPage` | src/cloud/main.js:170-183 | After a page at `sk`, a next page exists exactly when `sk + lim < total`, and it starts at `sk + lim`. |
| `Paging.WalkCovers` | src/cloud/main.js:183-185 | Following `nextSkip` from `sk` until it is null returns every match from position `sk` on, in order, once each. |
| `Paging.WalkFromStart` | src/cloud/main.js:183-185 | Paging from skip 0 by successive `nextSkip` values returns the whole ordered match list, once each. |
| `Paging.SevenMatchesInPagesOfFive` | src/cloud/main.js:170-185 | With 7 matches and limit 5, the first page has 5 items and `nextSkip` 5, and the second page has 2 items and `nextSkip` null. |
| `TaskIndex.OrderedIsNewestFirst` | src/cloud/main.js:108 | The recursive "newest first, no repetition" property of a result list implies its pairwise form: for any two positions i < j, the ids differ and the later one is not newer. |
| `TaskIndex.NewestFirstIsOrdered` | src/cloud/main.js:108 | The pairwise form implies the recursive one, so the two definitions of descending `createdAt` order agree. |
| `TaskIndex.Filter` | src/cloud/main.js:106-108 | An id is a query result exactly when it is in the underlying list and passes the filter. |
| `TaskIndex.FilterOrdered` | src/cloud/main.js:106-108 | Filtering a newest-first list of distinct stored ids keeps it newest first and distinct. |
| `TaskIndex.Select` | src/cloud/main.js:161-164 | The results are exactly the stored ids whose Task has owner == caller (and the given status, when one is given). They have no repetition and are ordered by descending `createdAt`. |
| `TaskIndex.OrderedCard` | src/cloud/main.js:166-167 | A newest-first list without repetition has as many elements as its set of elements. |
| `TaskIndex.SelectCount` | src/cloud/main.js:166-167 | The number of query results equals `count()`, the number of matching records in the store, independent of any page window. |
| `TaskIndex.Insert` | src/cloud/main.js:90 | Saving a new object adds exactly its id to the index, which grows by one. |
| `TaskIndex.InsertOrdered` | src/cloud/main.js:90 | After a fresh record is inserted, the index is still newest first and without repetition. |
| `TaskIndex.InsertIndexes` | src/cloud/main.js:90 | After a fresh record is inserted, the index covers exactly the enlarged store, newest first. |
| `TaskIndex.Remove` | src/cloud/main.js:147 | `destroy` takes exactly that id out of the index and keeps every other id. |
| `TaskIndex.RemoveIndexes` | src/cloud/main.js:147 | After a removal, the index covers exactly the store without that id, newest first. |
| `TaskIndex.UpdateIndexes` | src/cloud/main.js:131-132 | Re-saving a record under its `createdAt` keeps the index valid. |
| `TaskStore.Respond` | src/cloud/main.js:167-185 | The response of `tasksByStatus`. `total` is the number of ordered matches, counted before paging. There are `min(lim, max(total - sk, 0))` items, and item k is the projection `{id, title, status, priority, dueDate, createdAt}` of match `sk + k`. `limit` and `skip` are echoed back. `nextSkip` is `sk + \|items\|` exactly when that is below `total`, and null otherwise. |
| `TaskStore.Store.CreateTask` | src/cloud/main.js:61-100 | Errors, in order: no caller ("Not authorized"), a missing or non-string or empty title, a truthy `dueDate` that is not a valid date, then the gate's priority error and status error. An error leaves the store unchanged. A success adds exactly one record under a fresh id, with `createdAt` = now, owner and access rule = caller, `done == false`, the given title, `status` / `priority` as given or defaulted to "todo" / "med", and the parsed `dueDate`. The response carries the stored (defaulted) values. |
| `TaskStore.Store.MyTasks` | src/cloud/main.js:102-117 | With no caller the result is "Not authorized". Otherwise it lists exactly the caller's Tasks, each once, ordered by descending `createdAt`, each projected to `{id, title, done, createdAt}`. |
| `TaskStore.Store.TasksByStatus` | src/cloud/main.js:151-186 | Errors: no caller ("Not authorized"), then a `status` that is not a non-empty string. Otherwise it succeeds. The response is `Respond` over the caller's Tasks with that status, newest first, with `limit` and `skip` as `ClampLimit` and `ClampSkip` give them. `total` equals the number of such Tasks in the store. |
| `TaskStore.Store.ToggleTaskDone` | src/cloud/main.js:119-134 | Errors, in order: no caller, missing `taskId`, a non-boolean `done`, then "not found" for an id that is missing or owned by someone else (the same error for both). An error changes nothing. A success changes only `done` of that one record and returns `{id, done}`. |
| `TaskStore.Store.SetTaskStatus` | src/cloud/main.js:188-207 | Errors, in order: no caller, missing `taskId`, falsy `status`, "not found" (missing or not owned), then the gate's invalid-status error. An error changes nothing. A success sets `status` and `done == (status == "done")` on that one record only and returns `{id, status}`. |
| `TaskStore.Store.DeleteTask` | src/cloud/main.js:136-149 | Errors, in order: no caller, missing `taskId`, "not found" (missing or not owned). An error changes nothing. A success removes exactly that id, keeps every other entry, and returns `{id, deleted: true}`. |
| `TaskStore.Store.UpdateTask` | src/cloud/main.js:31-58 | A direct update of a stored Task by its owner passes through the gate. Errors, in order: no caller, an id that is missing or not owned ("not found"), any owner write ("Cannot change owner"), then the first failing check on the patched record: `priority`, then `status`, then `dueDate`. It succeeds exactly when the patched fields pass all three. An error changes nothing, and a success writes the patched record with its owner and `createdAt` kept. |

## Left out

- The `hello` function is left out: it returns a constant.
- src/index.js (Express, the ParseServer and ParseDashboard setup, HTTP listen, process exit) is left out: it is framework wiring and I/O.
- src/config/parse.config.js is left out: it only loads environment variables.
- The Parse ACL is modelled only as an owner-only rule (`acl == Some(owner)`), not as the framework's permission system. Lookups are modelled by the `owner == caller` filter. If requests run as the caller (next line), the two agree under `Store.Valid()`, because the gate always gives a Task the owner-only rule of its owner. Client-side ACL edits are not modelled.
- Each handler's queries and saves are modelled as made by the calling user. The code passes no session token to `find`, `count`, `get` or `save` (src/cloud/main.js:90, 110, 129, 132, 145, 167, 172, 199, 204). So the assumptions that the hook's `request.user` is the caller, and that the ACL and the owner filter give the same results, are about the framework, not the code.
- TaskStore.Store.MyTasks: a `find()` without `limit` (src/cloud/main.js:106-110) is modelled as returning every match, not just the framework's default first page of results.
- Object ids come from a counter, and `createdAt` is the `now` parameter, because clocks are inputs. The store keeps ids ordered by descending `createdAt`; among equal stamps the newer insert comes first, an order the framework does not specify.
- `new Date(x)` is the parameter `parseDate` of `CreateTask`, with `None` for an invalid date. ISO date parsing itself is not modelled.
- `Number(x)` is modelled only for integers and NaN (`NumArg`). Fractional and floating-point values are not modelled.
- A `taskId` is `Option<Id>`, with `None` for an absent or falsy one. A truthy value that names no object acts like an id that is not in the store.
- Concurrency and last-write-wins are not modelled: each handler is one atomic step.
- Errors from the persistence layer itself, such as a database failure, are not modelled.
- `TaskStore.Store.UpdateTask` is the framework's direct client update as it reaches the hook. Within it, the model puts the framework's own ACL check (as the owner-scoped lookup) after the auth check and before the gate. How the framework orders those internally is not modelled. Direct client creates, which skip `createTask`'s title and date checks, are left out.
- Serialisation of results to JSON is left out. A response is a datatype whose fields are the values `task.get` returns.
