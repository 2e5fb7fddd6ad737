# Task-Manager query-and-mutation layer, in Dafny

This project models the data layer of a small employee/task dashboard. It
covers four parts:

- the **task service**: an ordered in-memory store of tasks with filtered
  listing, lookup by id and by assignee, create (prepend), update (merge in
  place, `updatedAt` refreshed), status update, delete (filter out) and
  per-status statistics;
- the **employee service**: the same operations over a read-only employee
  list, where create, update and delete answer without writing anything;
- the **Tasks page filter**: four tests combined by AND, with an `'all'`
  sentinel for the three selectors, plus `clearFilters` and the choice of
  message under an empty listing;
- the **Employees page filter**: a name/email/department search, and the
  per-employee task count.

No service entry point throws to its caller. Every one except the two deletes
replies with a `{ data, error }` pair, which the model writes as
`Reply(data, error)` with the `error` slot an `Option<ServiceError>`; a
failure keeps the data the code sends with it (`[]`, `null`, or all-zero
statistics). `deleteTask` and `deleteEmployee` reply `{ error }` only, which
the model writes as a bare `Option<ServiceError>`.

Files and modules:

- `wrappers.dfy` (`Wrappers`): `Option`, and `Override`, the value a spread leaves for one key.
- `seqs.dfy` (`Seqs`): `Filter`, `FindIndex` and `Find`, which stand for the
  JavaScript array methods. It also holds `Sieved`, an independent description
  of what a filter returns: an order-preserving subsequence that keeps only
  the elements satisfying the predicate, and each of those as often as the
  input has it. `FilterSieves` and `SievedUnique` prove that `Filter` is
  exactly this and nothing else.
- `text.dfy` (`Text`): lower-casing (ASCII letters) and `includes`.
- `types.dfy` (`Types`): `Task`, `Employee`, the three-valued `TaskStatus` and
  `TaskPriority`, `ServiceError` and `Reply`.
- `task_service.dfy` (`TaskService`): the module-level `let tasksStore` becomes
  the `tasksStore: seq<Task>` field of a `TaskService` object. Its methods
  read or reassign that field. Each mutation's new state is tied to a function
  of the old store (`Update`, `WithoutId`, a prepend), and the lemmas beside
  those functions state what the code promises.
- `employee_service.dfy` (`EmployeeService`): pure functions of the mock list.
  Because they are functions, the list cannot change.
- `tasks_page.dfy` (`TasksPage`) and `employees_page.dfy` (`EmployeesPage`):
  the page-level comprehensions. `FilterState` is a class holding the four
  filter values that `clearFilters` resets.

`API_CONFIG.useMockData` is an input: a constant of the `TaskService` object
and a parameter of the employee functions. When it is false, every entry point
returns the `DatabaseNotConfigured` failure that the code's
`throw new Error('Database not configured')` turns into.

`Date.now()` ids and `new Date().toISOString()` timestamps are inputs too.
`createTask` reads the clock three times (the id, `createdAt` and
`updatedAt`), so `CreateTask` takes the id and two timestamps.

Three behaviours of the code are easy to misread, and the model keeps them as written:

- Ids are not guaranteed unique. `updateTask` rewrites only the first task
  with the id (`findIndex`). `deleteTask` removes every task with it (`filter`).
- `createdAt` and `updatedAt` are two separate clock reads. Nothing orders
  `updatedAt` after `createdAt`, or a new `updatedAt` after an old one.
- `updateEmployee` takes a `Partial<Employee>`, so it may override `id`. It
  does not refresh anything and writes nothing back.

## Model

| member | source | states |
|---|---|---|
| `TaskService.TaskService.constructor` | src/services/taskService.ts:16 | the store starts as the given mock tasks |
| `TaskService.TaskService.GetTasks` | src/services/taskService.ts:27-74 | with mock data: no error, and the reply is exactly the sieve of the store through `MatchesFilters`, meaning every supplied truthy filter at once, in store order, with multiplicities; the store is only read; otherwise `([], DatabaseNotConfigured)` |
| `TaskService.ListingIsExact` | src/services/taskService.ts:36-55 | a sequence is the sieve of the store through the filters if and only if it equals `Listing`, the one-pass AND specification |
| `TaskService.NoFiltersListEverything` | src/services/taskService.ts:36-55 | with no filters the listing is the whole store |
| `TaskService.FalsyAssigneeIsOmitted` | src/services/taskService.ts:44-46 | an absent or empty assignee filter gives the same listing as an omitted one, whatever the other filters are |
| `TaskService.FalsySearchIsOmitted` | src/services/taskService.ts:47-53 | an absent or empty search filter gives the same listing as an omitted one, whatever the other filters are |
| `TaskService.SearchListingHits` | src/services/taskService.ts:47-53 | every task in a search listing is in the store, and the lower-cased query occurs in its lower-cased title or description |
| `TaskService.TaskService.GetTaskById` | src/services/taskService.ts:80-103 | with mock data: no error; `null` if and only if no task has the id; otherwise the task at the first position holding the id |
| `TaskService.TaskService.GetTasksByAssignee` | src/services/taskService.ts:109-131 | exactly the tasks whose `assigneeId` is the argument, in store order, with multiplicities; no error |
| `TaskService.NewTask` | src/services/taskService.ts:143-148 | dropping the generated fields from the new task gives back the draft; id, createdAt and updatedAt are the generated values |
| `TaskService.TaskService.CreateTask` | src/services/taskService.ts:137-172 | the new store is the stamped draft followed by the old store, and the reply is the new record at index 0; on failure the store is unchanged |
| `TaskService.CreateThenListAll` | src/services/taskService.ts:149 | after a create, the unfiltered listing is the new task followed by the old store |
| `TaskService.CreateThenList` | src/services/taskService.ts:143-150 | after a create, a filtered listing is the old listing, preceded by the new task exactly when it matches |
| `TaskService.CreateThenGetById` | src/services/taskService.ts:149 | after a create, looking up the new id finds the new task |
| `TaskService.Merge` | src/services/taskService.ts:188-192 | the merged record keeps `id` and `createdAt`, and `updatedAt` is the refresh time whatever the patch says |
| `TaskService.MergeEmptyPatchOnlyRefreshes` | src/services/taskService.ts:188-192 | an empty patch changes only `updatedAt` |
| `TaskService.MergeStatusPatch` | src/services/taskService.ts:226 | the `{ status }` patch changes only `status` and `updatedAt` |
| `TaskService.UpdateMissingId` | src/services/taskService.ts:185-186 | updating an id no task has replies `(null, TaskNotFound)` and leaves the store unchanged |
| `TaskService.UpdateFirstMatch` | src/services/taskService.ts:185-194 | updating a present id rewrites only the first position holding it; the length and every other position are unchanged; the patch overrides; `id` and `createdAt` are kept; `updatedAt` is refreshed; the reply is the stored record |
| `TaskService.TaskService.UpdateTask` | src/services/taskService.ts:178-216 | the reply and the new store are `Update` of the old store; on failure the store is unchanged |
| `TaskService.TaskService.UpdateTaskStatus` | src/services/taskService.ts:222-227 | the reply and the new store are exactly those of an update with the `{ status }` patch |
| `TaskService.UpdateStatusMovesOneCount` | src/services/taskService.ts:222-227 | a status update keeps the total and moves one task from its old status count to its new one |
| `TaskService.TaskService.DeleteTask` | src/services/taskService.ts:233-255 | with mock data: the error is always `null`, and the new store is the old one without any task carrying the id |
| `TaskService.DeleteRemovesExactlyThatId` | src/services/taskService.ts:237 | the store after a delete is the sieve of the old store through "id differs": no task with the id is left, and every other task stays, in order, with its multiplicity |
| `TaskService.DeleteMissingIdIsNoOp` | src/services/taskService.ts:237-238 | deleting an id no task has leaves the store unchanged |
| `TaskService.DeleteIsIdempotent` | src/services/taskService.ts:237-238 | deleting twice gives the same store as deleting once |
| `TaskService.StatusCountsPartition` | src/services/taskService.ts:275-278 | the completed, pending and in-progress counts add up to the number of tasks |
| `TaskService.DeleteCompletedScenario` | src/services/taskService.ts:273-279 | for a store of pending, pending and completed tasks whose completed task has an id the other two do not share, deleting it leaves total 2, pending 2, completed 0, in progress 0 |
| `TaskService.TaskService.GetTaskStats` | src/services/taskService.ts:261-299 | total is the store size; each count is the number of tasks with that status; the three counts add up to the total; on failure all four are zero and the error is set |
| `TaskService.Truthy` | src/services/taskService.ts:44 | JavaScript truthiness of an optional string, as `if (filters?.assigneeId)` and `if (filters?.search)` test it: present and not empty |
| `TaskService.SearchHit` | src/services/taskService.ts:49-52 | the query occurs, ignoring case, in the title or in the description |
| `TaskService.IndexOfId` | src/services/taskService.ts:185 | `findIndex`: -1 exactly when no task has the id; otherwise a position holding the id with none before it |
| `TaskService.StatusPatch` | src/services/taskService.ts:226 | the patch `{ status }`: only the status is present; `MergeStatusPatch` states what applying it does |
| `TaskService.StatusCount` | src/services/taskService.ts:276-278 | the number of tasks with the status, which is the length of the `filter` on it and at most the store's length |
| `TaskService.MatchesFilters` | src/services/taskService.ts:38-53 | a task passes when it meets the status and priority filters if supplied, and the assignee and search filters if supplied and non-empty, all at once |
| `TaskService.Listing` | src/services/taskService.ts:36-55 | the one-pass listing holds a task if and only if the store holds it and it matches the filters |
| `TaskService.Update` | src/services/taskService.ts:185-194 | the store keeps its length; the reply succeeds if and only if some task has the id, and then carries a record with that id that is in the new store; otherwise it is `(null, TaskNotFound)` with the store unchanged |
| `TaskService.MergeFields` | src/services/taskService.ts:188-192 | each present patch field overrides and each absent one keeps the stored value; `id` and `createdAt` are kept; `updatedAt` is the refresh time |
| `TaskService.WithoutId` | src/services/taskService.ts:237 | no longer than the store; holds a task if and only if the store holds it and its id differs |
| `EmployeeService.MergeEmployee` | src/services/employeeService.ts:122 | `{ ...employee, ...updates }`: every present patch field, `id` included, replaces the stored one (stated field by field by `MergeEmployeeFields`) |
| `TasksPage.PassesPageFilters` | src/pages/Tasks.tsx:32-39 | the search test and, for each selector not at `'all'`, equality with that selector, all at once |
| `TasksPage.Notice` | src/pages/Tasks.tsx:147-151 | a notice if and only if the listing is empty; "create your first task" if and only if there are no tasks either; otherwise "adjust filters" |
| `EmployeesPage.EmployeeMatches` | src/pages/Employees.tsx:16-18 | the search occurs, ignoring case, in the name, the email or the department |
| `Text.Includes` | src/services/taskService.ts:50-51 | `includes`: the needle occurs in the haystack at some position |
| `Text.MatchesIgnoringCase` | src/services/taskService.ts:48-51 | the lower-cased query occurs in the lower-cased text |
| `Seqs.Filter` | src/services/taskService.ts:113 | the result is no longer than the input, and holds an element if and only if the input holds it and it passes |
| `Seqs.FindIndex` | src/services/taskService.ts:185 | `-1` if and only if no element passes; otherwise the first passing position |
| `Seqs.Find` | src/services/taskService.ts:84 | `null` if and only if no element passes; otherwise the element at the first passing position |
| `Text.LowerChar` | src/services/taskService.ts:48 | the result is never an upper-case letter; an upper-case letter maps to its lower-case letter; any other character is kept |
| `Text.Lower` | src/services/taskService.ts:48 | lower-casing keeps the length and lower-cases each character |
| `Text.EmptyQueryMatches` | src/pages/Tasks.tsx:33-34 | the empty query matches every text |
| `Text.LowerIdempotent` | src/services/taskService.ts:48 | lower-casing twice gives the same string as lower-casing once |
| `Text.MatchIgnoresQueryCase` | src/services/taskService.ts:48-52 | lower-casing the query first gives the same verdict for every text |
| `Text.MatchIgnoresTextCase` | src/services/taskService.ts:48-52 | lower-casing the text first gives the same verdict for every query |
| `Text.VerbatimOccurrenceMatches` | src/services/taskService.ts:48-52 | a text that contains the query verbatim matches it ignoring case |
| `EmployeeService.GetEmployees` | src/services/employeeService.ts:25-43 | with mock data: the whole list, unfiltered, with a null error; otherwise `([], DatabaseNotConfigured)` |
| `EmployeeService.GetEmployeeById` | src/services/employeeService.ts:49-72 | with mock data: the error is never set; `null` if and only if no employee has the id; otherwise the employee at the first position holding it |
| `EmployeeService.CreateEmployee` | src/services/employeeService.ts:78-107 | the record holds every draft field and the generated id |
| `EmployeeService.MergeEmployeeFields` | src/services/employeeService.ts:122 | each present patch field, `id` included, overrides; each absent one keeps the stored value; an empty patch changes nothing |
| `EmployeeService.UpdateEmployee` | src/services/employeeService.ts:113-142 | a missing id replies `(null, EmployeeNotFound)`; a present id replies with the first matching employee merged with the patch and no error |
| `EmployeeService.DeleteEmployee` | src/services/employeeService.ts:148-169 | with mock data the error is always `null`, and there is no list to change |
| `EmployeeService.MissingIdLookupVersusUpdate` | src/services/employeeService.ts:120-121 | for a missing id, lookup replies `(null, null)` but update replies `(null, EmployeeNotFound)` |
| `EmployeeService.EmptyUpdateIsLookup` | src/services/employeeService.ts:120-123 | for a present id, an update with an empty patch replies what the lookup replies |
| `EmployeeService.UpdateMayOverrideId` | src/services/employeeService.ts:115-122 | a patch carrying an id yields a record with that id |
| `EmployeeService.CreatedEmployeeIsNotRetrievable` | src/services/employeeService.ts:84-89 | a created employee with a fresh id is not found by a later lookup, and the list is the same list |
| `TasksPage.FilteredTasks` | src/pages/Tasks.tsx:31-41 | exactly the tasks passing all four tests, in the order fetched, with multiplicities |
| `TasksPage.SentinelsImposeNothing` | src/pages/Tasks.tsx:35-37 | with all three selectors at `'all'`, only the search test is left |
| `TasksPage.EmptySearchPassesAll` | src/pages/Tasks.tsx:33-34 | an empty search passes every task |
| `TasksPage.ClearedFiltersShowEverything` | src/pages/Tasks.tsx:86-91 | with the cleared state, `filteredTasks` equals `tasks` |
| `TasksPage.PageAgreesWithService` | src/pages/Tasks.tsx:31-41 | the page filter gives the service listing for the corresponding filter set, unless the assignee selector is the empty string |
| `TasksPage.NoticeChoice` | src/pages/Tasks.tsx:147-152 | a notice is shown if and only if nothing is listed; "create your first task" is shown if and only if there are no tasks; "adjust filters" is shown if and only if there are tasks but none is listed |
| `TasksPage.ClearedNeverSaysAdjust` | src/pages/Tasks.tsx:147-152 | with cleared filters, "adjust filters" is never shown |
| `TasksPage.FilterState.constructor` | src/pages/Tasks.tsx:26-29 | the initial filter state is the cleared state |
| `TasksPage.FilterState.ClearFilters` | src/pages/Tasks.tsx:86-91 | search is `''` and all three selectors are `'all'`; afterwards every task list is shown in full |
| `EmployeesPage.FilteredEmployees` | src/pages/Employees.tsx:15-19 | exactly the employees whose lower-cased name, email or department contains the lower-cased search, in order, with multiplicities |
| `EmployeesPage.EmptySearchKeepsEveryone` | src/pages/Employees.tsx:15-19 | an empty search keeps every employee |
| `EmployeesPage.TaskCount` | src/pages/Employees.tsx:21-23 | the number of tasks assigned to the employee, counted one by one; at most the number of tasks |
| `EmployeesPage.TaskCountIsAssigneeListingLength` | src/pages/Employees.tsx:21-23 | the count equals the length of the exact assignee listing that `getTasksByAssignee` returns |

## Left out

- The simulated latency (`delay`/`setTimeout`), promises and `console.error`. The operations are modelled as atomic steps, so two mutations issued without awaiting each other are not interleaved.
- `apiRequest` in src/services/api.ts. It catches its own `throw` and always returns the failure pair `{ data: null, error }`, and the services do not call it.
- The query-cache invalidation in src/hooks/useTasks.ts and src/hooks/useEmployees.ts. It is calls into an external cache library whose key-matching is not part of this model.
- Uniqueness of `Date.now()` ids and monotonic timestamps. Clock values are opaque inputs.
- Unicode case mapping. `Text.LowerChar` lower-cases ASCII letters only.
- The contents of `mockTasks`/`mockEmployees`. src/data/mockData is not part of this model, so the initial lists are parameters.
- A patch field explicitly set to `undefined`. JavaScript's spread would write `undefined` over the stored value. The model's `None` means the key is absent.
- Extra runtime keys in the objects passed to `createTask`/`createEmployee` and in the `updates` passed to `updateTask`, which the spread would copy. Under structural typing a whole `Task` can be passed as `updates`, and its `id` or `createdAt` would then overwrite the stored ones. `TaskPatch` has no `id` or `createdAt` field, so the `Merge` and `UpdateFirstMatch` claim that `id` and `createdAt` are kept rests on the declared parameter type, not on the code.
- Aliasing of returned records. `getTasks` (whose `[...tasksStore]` copies the array but not the records), `getTaskById`, `getTasksByAssignee`, `createTask`, `updateTask`, `getEmployees` (the `mockEmployees` array itself) and `getEmployeeById` hand out the stored objects themselves, so a caller that mutated one would change the store. The model returns values, so it cannot express this, and nothing in the modelled code mutates a returned record.
- The Dashboard percentages (floating point), all rendering, date formatting, toasts, the page's mutation handlers and the setters behind the filter inputs.
- `UserRole` and `DashboardStats` in src/types/index.ts, which the modelled code does not use.
