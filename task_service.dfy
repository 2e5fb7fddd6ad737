/**
  The task service (src/services/taskService.ts): a module-level ordered store
  of tasks, read by filtered listing, lookups and statistics and changed by
  create (prepend), update (merge in place) and delete (filter out).

  The module-level `let tasksStore` becomes the field of a `TaskService`
  object; `API_CONFIG.useMockData` becomes a constant of that object, and its
  false branch is the `DatabaseNotConfigured` failure every entry point turns
  into a reply. The clock and `Date.now()` ids are inputs of the operations.
*/
module TaskService {
  import opened Wrappers
  import opened Seqs
  import opened Text
  import opened Types

  // ---------------------------------------------------------------------------
  // Filtered listing
  // ---------------------------------------------------------------------------

  /** The optional filter object of `getTasks`; calling it without one is `NoFilters`. */
  datatype TaskFilters = TaskFilters(
    status: Option<TaskStatus>,
    priority: Option<TaskPriority>,
    assigneeId: Option<Id>,
    search: Option<string>)

  const NoFilters := TaskFilters(None, None, None, None)

  /** JavaScript truthiness of an optional string: present and not empty. */
  predicate Truthy(o: Option<string>)
  {
    o.Some? && o.value != ""
  }

  /** The free-text test: the query occurs, ignoring case, in the title or in the description. */
  predicate SearchHit(t: Task, query: string)
  {
    MatchesIgnoringCase(t.title, query) || MatchesIgnoringCase(t.description, query)
  }

  // One predicate per filter; a status or priority is always a non-empty
  // string, so for those two "supplied" and "truthy" coincide.
  predicate StatusOk(t: Task, f: TaskFilters) { f.status.Some? ==> t.status == f.status.value }
  predicate PriorityOk(t: Task, f: TaskFilters) { f.priority.Some? ==> t.priority == f.priority.value }
  predicate AssigneeOk(t: Task, f: TaskFilters) { Truthy(f.assigneeId) ==> t.assigneeId == f.assigneeId.value }
  predicate SearchOk(t: Task, f: TaskFilters) { Truthy(f.search) ==> SearchHit(t, f.search.value) }

  /** A task passes a filter set when it passes every supplied, truthy filter. */
  predicate MatchesFilters(t: Task, f: TaskFilters)
  {
    StatusOk(t, f) && PriorityOk(t, f) && AssigneeOk(t, f) && SearchOk(t, f)
  }

  /** The listing `getTasks(f)` answers in one pass: the matching tasks in store order. */
  function Listing(store: seq<Task>, f: TaskFilters): (r: seq<Task>)
    ensures forall t | t in r :: t in store && MatchesFilters(t, f)
    ensures forall t | t in store && MatchesFilters(t, f) :: t in r
  {
    Filter(store, (t: Task) => MatchesFilters(t, f))
  }

  /** The listing is exactly the sieve of the store through the filters, and nothing else is. */
  lemma ListingIsExact(store: seq<Task>, f: TaskFilters, r: seq<Task>)
    ensures Sieved(r, store, (t: Task) => MatchesFilters(t, f)) <==> r == Listing(store, f)
  {
    FilterSieves(store, (t: Task) => MatchesFilters(t, f));
    if Sieved(r, store, (t: Task) => MatchesFilters(t, f)) {
      SievedUnique(r, store, (t: Task) => MatchesFilters(t, f));
    }
  }

  /** Omitted filters impose no constraint: the unfiltered listing is the whole store. */
  lemma NoFiltersListEverything(store: seq<Task>)
    ensures Listing(store, NoFilters) == store
  {
    FilterKeepsAll(store, (t: Task) => MatchesFilters(t, NoFilters));
  }

  /** A falsy (absent or empty) assignee filter lists the same as an omitted one, whatever the other filters. */
  lemma FalsyAssigneeIsOmitted(store: seq<Task>, f: TaskFilters)
    requires !Truthy(f.assigneeId)
    ensures Listing(store, f) == Listing(store, f.(assigneeId := None))
  {
    var omitted := f.(assigneeId := None);
    FilterExtensional(store, (t: Task) => MatchesFilters(t, f), (t: Task) => MatchesFilters(t, omitted));
  }

  /** A falsy (absent or empty) search filter lists the same as an omitted one, whatever the other filters. */
  lemma FalsySearchIsOmitted(store: seq<Task>, f: TaskFilters)
    requires !Truthy(f.search)
    ensures Listing(store, f) == Listing(store, f.(search := None))
  {
    var omitted := f.(search := None);
    FilterExtensional(store, (t: Task) => MatchesFilters(t, f), (t: Task) => MatchesFilters(t, omitted));
  }

  /** Every task in a search listing contains the query, ignoring case, in its title or description. */
  lemma SearchListingHits(store: seq<Task>, f: TaskFilters, t: Task)
    requires Truthy(f.search) && t in Listing(store, f)
    ensures t in store && SearchHit(t, f.search.value)
  {
  }

  // ---------------------------------------------------------------------------
  // Creation, update, deletion as functions of the old store
  // ---------------------------------------------------------------------------

  /** `Omit<Task, 'id' | 'createdAt' | 'updatedAt'>`, the argument of `createTask`. */
  datatype TaskDraft = TaskDraft(
    title: string,
    description: string,
    status: TaskStatus,
    priority: TaskPriority,
    assigneeId: Id,
    dueDate: Timestamp)

  /** The fields of a task that `createTask` takes from its caller. */
  function DraftOf(t: Task): TaskDraft
  {
    TaskDraft(t.title, t.description, t.status, t.priority, t.assigneeId, t.dueDate)
  }

  /** `{ ...task, id, createdAt, updatedAt }`: the draft stamped with generated values. */
  function NewTask(draft: TaskDraft, id: Id, createdAt: Timestamp, updatedAt: Timestamp): (t: Task)
    ensures DraftOf(t) == draft
    ensures t.id == id && t.createdAt == createdAt && t.updatedAt == updatedAt
  {
    Task(id, draft.title, draft.description, draft.status, draft.priority,
         draft.assigneeId, draft.dueDate, createdAt, updatedAt)
  }

  /**
    `Partial<Omit<Task, 'id' | 'createdAt'>>`, the patch of `updateTask`: a
    present field overrides the stored one, an absent one keeps it.
  */
  datatype TaskPatch = TaskPatch(
    title: Option<string>,
    description: Option<string>,
    status: Option<TaskStatus>,
    priority: Option<TaskPriority>,
    assigneeId: Option<Id>,
    dueDate: Option<Timestamp>,
    updatedAt: Option<Timestamp>)

  const EmptyPatch := TaskPatch(None, None, None, None, None, None, None)

  /** `{ status }`, the patch `updateTaskStatus` hands to `updateTask`. */
  function StatusPatch(status: TaskStatus): TaskPatch
  {
    EmptyPatch.(status := Some(status))
  }

  /** `{ ...stored, ...updates, updatedAt: now }` */
  function Merge(stored: Task, patch: TaskPatch, now: Timestamp): (r: Task)
    ensures r.id == stored.id && r.createdAt == stored.createdAt
    ensures r.updatedAt == now
  {
    stored.(
      title := Override(patch.title, stored.title),
      description := Override(patch.description, stored.description),
      status := Override(patch.status, stored.status),
      priority := Override(patch.priority, stored.priority),
      assigneeId := Override(patch.assigneeId, stored.assigneeId),
      dueDate := Override(patch.dueDate, stored.dueDate),
      updatedAt := now)
  }

  /** A present patch field wins; an absent one keeps the stored value; `updatedAt` is always `now`. */
  lemma MergeFields(stored: Task, patch: TaskPatch, now: Timestamp)
    ensures var r := Merge(stored, patch, now);
      && r.id == stored.id
      && r.title == (if patch.title.Some? then patch.title.value else stored.title)
      && r.description == (if patch.description.Some? then patch.description.value else stored.description)
      && r.status == (if patch.status.Some? then patch.status.value else stored.status)
      && r.priority == (if patch.priority.Some? then patch.priority.value else stored.priority)
      && r.assigneeId == (if patch.assigneeId.Some? then patch.assigneeId.value else stored.assigneeId)
      && r.dueDate == (if patch.dueDate.Some? then patch.dueDate.value else stored.dueDate)
      && r.createdAt == stored.createdAt
      && r.updatedAt == now
  {
  }

  lemma MergeEmptyPatchOnlyRefreshes(stored: Task, now: Timestamp)
    ensures Merge(stored, EmptyPatch, now) == stored.(updatedAt := now)
  {
  }

  /** A status-only patch changes the status and `updatedAt` and nothing else. */
  lemma MergeStatusPatch(stored: Task, status: TaskStatus, now: Timestamp)
    ensures Merge(stored, StatusPatch(status), now) == stored.(status := status, updatedAt := now)
  {
  }

  /** `tasksStore.findIndex(t => t.id === id)` */
  function IndexOfId(store: seq<Task>, id: Id): (k: int)
    ensures k == -1 <==> forall i :: 0 <= i < |store| ==> store[i].id != id
    ensures k != -1 ==> 0 <= k < |store| && store[k].id == id
    ensures forall j :: 0 <= j < k ==> store[j].id != id
  {
    FindIndex(store, (t: Task) => t.id == id)
  }

  /** The reply of `updateTask` (mock branch) together with the store it leaves. */
  function Update(store: seq<Task>, id: Id, patch: TaskPatch, now: Timestamp)
    : (res: (Reply<Option<Task>>, seq<Task>))
    ensures |res.1| == |store|
    ensures res.0.Ok() <==> exists i :: 0 <= i < |store| && store[i].id == id
    ensures !res.0.Ok() ==> res == (Reply(None, Some(TaskNotFound)), store)
    ensures res.0.Ok() ==> res.0.data.Some? && res.0.data.value.id == id && res.0.data.value in res.1
  {
    var i := IndexOfId(store, id);
    if i == -1 then (Reply(None, Some(TaskNotFound)), store)
    else
      var updated := Merge(store[i], patch, now);
      assert store[i := updated][i] == updated;
      (Reply(Some(updated), None), store[i := updated])
  }

  /** Updating an id that no task has fails with `TaskNotFound` and leaves the store as it was. */
  lemma UpdateMissingId(store: seq<Task>, id: Id, patch: TaskPatch, now: Timestamp)
    requires forall i :: 0 <= i < |store| ==> store[i].id != id
    ensures Update(store, id, patch, now) == (Reply(None, Some(TaskNotFound)), store)
  {
  }

  /**
    Updating a present id rewrites only the first task with that id, in place:
    patched fields override, `id` and `createdAt` stay, `updatedAt` is
    refreshed, every other position is untouched, and the reply carries the
    stored record.
  */
  lemma UpdateFirstMatch(store: seq<Task>, id: Id, patch: TaskPatch, now: Timestamp, k: nat)
    requires k < |store| && store[k].id == id
    requires forall j :: 0 <= j < k ==> store[j].id != id
    ensures var (r, after) := Update(store, id, patch, now);
      && |after| == |store|
      && after[k] == Merge(store[k], patch, now)
      && after[k].id == id && after[k].createdAt == store[k].createdAt && after[k].updatedAt == now
      && (forall j :: 0 <= j < |store| && j != k ==> after[j] == store[j])
      && r == Reply(Some(after[k]), None)
  {
  }

  /** A status update moves one task between the per-status counts and keeps the total. */
  lemma UpdateStatusMovesOneCount(store: seq<Task>, id: Id, status: TaskStatus, now: Timestamp, s: TaskStatus)
    requires exists i :: 0 <= i < |store| && store[i].id == id
    ensures var k := IndexOfId(store, id);
      var (_, after) := Update(store, id, StatusPatch(status), now);
      && |after| == |store|
      && StatusCount(after, s) == StatusCount(store, s)
           - (if store[k].status == s then 1 else 0) + (if status == s then 1 else 0)
  {
    var k := IndexOfId(store, id);
    MergeStatusPatch(store[k], status, now);
    CountWhereUpdate(store, k, Merge(store[k], StatusPatch(status), now), (t: Task) => t.status == s);
  }

  /** `tasksStore.filter(t => t.id !== id)` */
  function WithoutId(store: seq<Task>, id: Id): (r: seq<Task>)
    ensures |r| <= |store|
    ensures forall t | t in r :: t in store && t.id != id
    ensures forall t | t in store && t.id != id :: t in r
  {
    Filter(store, (t: Task) => t.id != id)
  }

  /**
    Deletion removes every task carrying the id and keeps all the others,
    each as often as before, in their original order.
  */
  lemma DeleteRemovesExactlyThatId(store: seq<Task>, id: Id)
    ensures Sieved(WithoutId(store, id), store, (t: Task) => t.id != id)
    ensures forall t | t in WithoutId(store, id) :: t.id != id
  {
    FilterSieves(store, (t: Task) => t.id != id);
  }

  /** Deleting an id no task has is a no-op. */
  lemma DeleteMissingIdIsNoOp(store: seq<Task>, id: Id)
    requires forall i :: 0 <= i < |store| ==> store[i].id != id
    ensures WithoutId(store, id) == store
  {
    FilterKeepsAll(store, (t: Task) => t.id != id);
  }

  /** Deleting twice is deleting once. */
  lemma DeleteIsIdempotent(store: seq<Task>, id: Id)
    ensures WithoutId(WithoutId(store, id), id) == WithoutId(store, id)
  {
    FilterIdempotent(store, (t: Task) => t.id != id);
  }

  // ---------------------------------------------------------------------------
  // Statistics
  // ---------------------------------------------------------------------------

  datatype TaskStats = TaskStats(total: nat, completed: nat, pending: nat, inProgress: nat)

  /** The number of tasks with status `s`, counted one by one. */
  function StatusCount(store: seq<Task>, s: TaskStatus): (n: nat)
    ensures n <= |store|
    ensures n == |Filter(store, (t: Task) => t.status == s)|
  {
    FilterLength(store, (t: Task) => t.status == s);
    CountWhere(store, (t: Task) => t.status == s)
  }

  /** Every task has exactly one of the three statuses, so the three counts add up to the total. */
  lemma {:induction false} StatusCountsPartition(store: seq<Task>)
    ensures StatusCount(store, Completed) + StatusCount(store, Pending) + StatusCount(store, InProgress) == |store|
  {
    if store != [] {
      StatusCountsPartition(store[1..]);
    }
  }

  /** The scenario of three tasks (pending, pending, completed) whose completed one is deleted. */
  lemma DeleteCompletedScenario(a: Task, b: Task, c: Task)
    requires a.status == Pending && b.status == Pending && c.status == Completed
    requires a.id != c.id && b.id != c.id
    ensures var after := WithoutId([a, b, c], c.id);
      && |after| == 2
      && StatusCount(after, Completed) == 0
      && StatusCount(after, Pending) == 2
      && StatusCount(after, InProgress) == 0
  {
    var keep := (t: Task) => t.id != c.id;
    assert [a, b, c][1..] == [b, c] && [b, c][1..] == [c] && [c][1..] == [];
    assert Filter([c], keep) == [];
    assert Filter([b, c], keep) == [b] + Filter([c], keep);
    assert Filter([a, b, c], keep) == [a] + Filter([b, c], keep);
    assert WithoutId([a, b, c], c.id) == [a, b];
    assert [a, b][1..] == [b] && [b][1..] == [];
    forall st: TaskStatus
      ensures StatusCount([a, b], st) == (if st == Pending then 2 else 0)
    {
      assert StatusCount([], st) == 0;
      assert StatusCount([b], st) == (if st == Pending then 1 else 0) + StatusCount([], st);
      assert StatusCount([a, b], st) == (if st == Pending then 1 else 0) + StatusCount([b], st);
    }
  }

  // ---------------------------------------------------------------------------
  // The service object
  // ---------------------------------------------------------------------------

  class TaskService {
    /** `let tasksStore`, newest-created first. */
    var tasksStore: seq<Task>
    /** `API_CONFIG.useMockData`; when false every entry point fails with `DatabaseNotConfigured`. */
    const useMockData: bool

    /** `let tasksStore = [...mockTasks]` */
    constructor (mockTasks: seq<Task>, useMockData: bool)
      ensures tasksStore == mockTasks && this.useMockData == useMockData
    {
      tasksStore := mockTasks;
      this.useMockData := useMockData;
    }

    /**
      `getTasks(filters)`: the tasks of the store passing every supplied filter,
      in store order, each as often as it is stored. The store is only read.
    */
    method GetTasks(filters: TaskFilters) returns (r: Reply<seq<Task>>)
      ensures useMockData ==> r.Ok() && Sieved(r.data, tasksStore, (t: Task) => MatchesFilters(t, filters))
      ensures !useMockData ==> r == Reply([], Some(DatabaseNotConfigured))
    {
      if !useMockData {
        return Reply([], Some(DatabaseNotConfigured));
      }
      var filtered := tasksStore;
      FilterKeepsAll(tasksStore, (t: Task) => true);
      if filters.status.Some? {
        var status := filters.status.value;
        FilterFuse(tasksStore, (t: Task) => true, (t: Task) => t.status == status,
          (t: Task) => StatusOk(t, filters));
        filtered := Filter(filtered, (t: Task) => t.status == status);
      } else {
        FilterExtensional(tasksStore, (t: Task) => true, (t: Task) => StatusOk(t, filters));
      }
      assert filtered == Filter(tasksStore, (t: Task) => StatusOk(t, filters));
      if filters.priority.Some? {
        var priority := filters.priority.value;
        FilterFuse(tasksStore, (t: Task) => StatusOk(t, filters), (t: Task) => t.priority == priority,
          (t: Task) => StatusOk(t, filters) && PriorityOk(t, filters));
        filtered := Filter(filtered, (t: Task) => t.priority == priority);
      } else {
        FilterExtensional(tasksStore, (t: Task) => StatusOk(t, filters),
          (t: Task) => StatusOk(t, filters) && PriorityOk(t, filters));
      }
      assert filtered == Filter(tasksStore, (t: Task) => StatusOk(t, filters) && PriorityOk(t, filters));
      if Truthy(filters.assigneeId) {
        var assigneeId := filters.assigneeId.value;
        FilterFuse(tasksStore, (t: Task) => StatusOk(t, filters) && PriorityOk(t, filters),
          (t: Task) => t.assigneeId == assigneeId,
          (t: Task) => StatusOk(t, filters) && PriorityOk(t, filters) && AssigneeOk(t, filters));
        filtered := Filter(filtered, (t: Task) => t.assigneeId == assigneeId);
      } else {
        FilterExtensional(tasksStore, (t: Task) => StatusOk(t, filters) && PriorityOk(t, filters),
          (t: Task) => StatusOk(t, filters) && PriorityOk(t, filters) && AssigneeOk(t, filters));
      }
      assert filtered == Filter(tasksStore,
        (t: Task) => StatusOk(t, filters) && PriorityOk(t, filters) && AssigneeOk(t, filters));
      if Truthy(filters.search) {
        var searchLower := Lower(filters.search.value);
        FilterFuse(tasksStore,
          (t: Task) => StatusOk(t, filters) && PriorityOk(t, filters) && AssigneeOk(t, filters),
          (t: Task) => Includes(Lower(t.title), searchLower) || Includes(Lower(t.description), searchLower),
          (t: Task) => MatchesFilters(t, filters));
        filtered := Filter(filtered,
          (t: Task) => Includes(Lower(t.title), searchLower) || Includes(Lower(t.description), searchLower));
      } else {
        FilterExtensional(tasksStore,
          (t: Task) => StatusOk(t, filters) && PriorityOk(t, filters) && AssigneeOk(t, filters),
          (t: Task) => MatchesFilters(t, filters));
      }
      FilterSieves(tasksStore, (t: Task) => MatchesFilters(t, filters));
      r := Reply(filtered, None);
    }

    /** `getTaskById(id)`: the first task with that id, or `null` with no error when there is none. */
    method GetTaskById(id: Id) returns (r: Reply<Option<Task>>)
      ensures useMockData ==> r.Ok()
      ensures useMockData ==> (r.data.None? <==> forall i :: 0 <= i < |tasksStore| ==> tasksStore[i].id != id)
      ensures useMockData && r.data.Some? ==>
        exists i :: IsFirst(tasksStore, i, (t: Task) => t.id == id) && tasksStore[i] == r.data.value
      ensures !useMockData ==> r == Reply(None, Some(DatabaseNotConfigured))
    {
      if !useMockData {
        return Reply(None, Some(DatabaseNotConfigured));
      }
      var task := Find(tasksStore, (t: Task) => t.id == id);
      r := Reply(task, None);
    }

    /** `getTasksByAssignee(assigneeId)`: exactly the tasks assigned to `assigneeId`, in store order. */
    method GetTasksByAssignee(assigneeId: Id) returns (r: Reply<seq<Task>>)
      ensures useMockData ==> r.Ok() && Sieved(r.data, tasksStore, (t: Task) => t.assigneeId == assigneeId)
      ensures !useMockData ==> r == Reply([], Some(DatabaseNotConfigured))
    {
      if !useMockData {
        return Reply([], Some(DatabaseNotConfigured));
      }
      var tasks := Filter(tasksStore, (t: Task) => t.assigneeId == assigneeId);
      FilterSieves(tasksStore, (t: Task) => t.assigneeId == assigneeId);
      r := Reply(tasks, None);
    }

    /**
      `createTask(draft)`: the draft stamped with the generated id and timestamps
      is prepended to the store and returned.
    */
    method CreateTask(draft: TaskDraft, generatedId: Id, createdAt: Timestamp, updatedAt: Timestamp)
      returns (r: Reply<Option<Task>>)
      modifies this
      ensures useMockData ==>
        && tasksStore == [NewTask(draft, generatedId, createdAt, updatedAt)] + old(tasksStore)
        && r == Reply(Some(tasksStore[0]), None)
      ensures !useMockData ==>
        r == Reply(None, Some(DatabaseNotConfigured)) && tasksStore == old(tasksStore)
    {
      if !useMockData {
        return Reply(None, Some(DatabaseNotConfigured));
      }
      var newTask := NewTask(draft, generatedId, createdAt, updatedAt);
      tasksStore := [newTask] + tasksStore;
      r := Reply(Some(newTask), None);
    }

    /**
      `updateTask(id, updates)`: merges the patch into the first task with that
      id, in place, refreshing `updatedAt`; fails with `TaskNotFound` otherwise.
    */
    method UpdateTask(id: Id, patch: TaskPatch, now: Timestamp) returns (r: Reply<Option<Task>>)
      modifies this
      ensures useMockData ==> (r, tasksStore) == Update(old(tasksStore), id, patch, now)
      ensures !useMockData ==>
        r == Reply(None, Some(DatabaseNotConfigured)) && tasksStore == old(tasksStore)
    {
      if !useMockData {
        return Reply(None, Some(DatabaseNotConfigured));
      }
      var index := FindIndex(tasksStore, (t: Task) => t.id == id);
      if index == -1 {
        return Reply(None, Some(TaskNotFound));
      }
      var updated := Merge(tasksStore[index], patch, now);
      tasksStore := tasksStore[index := updated];
      r := Reply(Some(updated), None);
    }

    /** `updateTaskStatus(id, status)`: exactly `updateTask(id, { status })`. */
    method UpdateTaskStatus(id: Id, status: TaskStatus, now: Timestamp) returns (r: Reply<Option<Task>>)
      modifies this
      ensures useMockData ==> (r, tasksStore) == Update(old(tasksStore), id, StatusPatch(status), now)
      ensures !useMockData ==>
        r == Reply(None, Some(DatabaseNotConfigured)) && tasksStore == old(tasksStore)
    {
      r := UpdateTask(id, StatusPatch(status), now);
    }

    /** `deleteTask(id)`: drops every task with that id; succeeds whether or not there was one. */
    method DeleteTask(id: Id) returns (error: Option<ServiceError>)
      modifies this
      ensures useMockData ==> error == None && tasksStore == WithoutId(old(tasksStore), id)
      ensures !useMockData ==> error == Some(DatabaseNotConfigured) && tasksStore == old(tasksStore)
    {
      if !useMockData {
        return Some(DatabaseNotConfigured);
      }
      tasksStore := Filter(tasksStore, (t: Task) => t.id != id);
      error := None;
    }

    /**
      `getTaskStats()`: the size of the store and the number of tasks per
      status, which add up to the size; all zeros on failure.
    */
    method GetTaskStats() returns (r: Reply<TaskStats>)
      ensures r.data.completed + r.data.pending + r.data.inProgress == r.data.total
      ensures useMockData ==> r.Ok() && r.data.total == |tasksStore|
      ensures useMockData ==>
        && r.data.completed == StatusCount(tasksStore, Completed)
        && r.data.pending == StatusCount(tasksStore, Pending)
        && r.data.inProgress == StatusCount(tasksStore, InProgress)
      ensures !useMockData ==> r == Reply(TaskStats(0, 0, 0, 0), Some(DatabaseNotConfigured))
    {
      if !useMockData {
        return Reply(TaskStats(0, 0, 0, 0), Some(DatabaseNotConfigured));
      }
      var completed := Filter(tasksStore, (t: Task) => t.status == Completed);
      var pending := Filter(tasksStore, (t: Task) => t.status == Pending);
      var inProgress := Filter(tasksStore, (t: Task) => t.status == InProgress);
      FilterLength(tasksStore, (t: Task) => t.status == Completed);
      FilterLength(tasksStore, (t: Task) => t.status == Pending);
      FilterLength(tasksStore, (t: Task) => t.status == InProgress);
      StatusCountsPartition(tasksStore);
      r := Reply(TaskStats(|tasksStore|, |completed|, |pending|, |inProgress|), None);
    }
  }

  /** `createTask` followed by an unfiltered `getTasks` lists the new task first, then the old store. */
  lemma CreateThenListAll(store: seq<Task>, t: Task)
    ensures Listing([t] + store, NoFilters) == [t] + store
  {
    NoFiltersListEverything([t] + store);
  }

  /** A filtered listing after `createTask` is the old listing, preceded by the new task when it matches. */
  lemma CreateThenList(store: seq<Task>, t: Task, f: TaskFilters)
    ensures Listing([t] + store, f) == (if MatchesFilters(t, f) then [t] else []) + Listing(store, f)
  {
  }

  /** `getTaskById` of the id just created finds the created task. */
  lemma CreateThenGetById(store: seq<Task>, t: Task)
    ensures Find([t] + store, (x: Task) => x.id == t.id) == Some(t)
  {
  }
}
