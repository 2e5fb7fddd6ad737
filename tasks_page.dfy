/**
  The filtering logic of the Tasks page (src/pages/Tasks.tsx): the
  `filteredTasks` comprehension over the fetched tasks, the four pieces of
  filter state that `clearFilters` resets, and the choice of message shown
  when nothing is listed. Rendering and the mutation handlers are not modelled.
*/
module TasksPage {
  import opened Wrappers
  import opened Seqs
  import opened Text
  import opened Types
  import TaskService

  /** A selector value: `T | 'all'`. */
  datatype Choice<T> = All | Only(value: T)

  /** The assignee selector is a plain string whose sentinel is `'all'`. */
  const AllAssignees := "all"

  /** The page's filter state: `search`, `statusFilter`, `priorityFilter`, `assigneeFilter`. */
  datatype PageFilters = PageFilters(
    search: string,
    statusFilter: Choice<TaskStatus>,
    priorityFilter: Choice<TaskPriority>,
    assigneeFilter: string)

  /** The state `clearFilters` sets, which is also the initial `useState` state. */
  const ClearedFilters := PageFilters("", All, All, AllAssignees)

  /** `matchesSearch && matchesStatus && matchesPriority && matchesAssignee` */
  predicate PassesPageFilters(t: Task, f: PageFilters)
  {
    && TaskService.SearchHit(t, f.search)
    && (f.statusFilter.All? || t.status == f.statusFilter.value)
    && (f.priorityFilter.All? || t.priority == f.priorityFilter.value)
    && (f.assigneeFilter == AllAssignees || t.assigneeId == f.assigneeFilter)
  }

  /** `filteredTasks`: exactly the tasks passing all four tests, in the order fetched. */
  function FilteredTasks(tasks: seq<Task>, f: PageFilters): (r: seq<Task>)
    ensures Sieved(r, tasks, (t: Task) => PassesPageFilters(t, f))
  {
    FilterSieves(tasks, (t: Task) => PassesPageFilters(t, f));
    Filter(tasks, (t: Task) => PassesPageFilters(t, f))
  }

  /** With every selector at its sentinel only the search is left. */
  lemma SentinelsImposeNothing(tasks: seq<Task>, search: string)
    ensures FilteredTasks(tasks, PageFilters(search, All, All, AllAssignees))
         == Filter(tasks, (t: Task) => TaskService.SearchHit(t, search))
  {
    var f := PageFilters(search, All, All, AllAssignees);
    FilterExtensional(tasks, (t: Task) => PassesPageFilters(t, f),
      (t: Task) => TaskService.SearchHit(t, search));
  }

  /** An empty search lets every task through the search test. */
  lemma EmptySearchPassesAll(t: Task)
    ensures TaskService.SearchHit(t, "")
  {
    EmptyQueryMatches(t.title);
  }

  /** After `clearFilters` the page lists every fetched task. */
  lemma ClearedFiltersShowEverything(tasks: seq<Task>)
    ensures FilteredTasks(tasks, ClearedFilters) == tasks
  {
    forall i | 0 <= i < |tasks| ensures PassesPageFilters(tasks[i], ClearedFilters) {
      EmptySearchPassesAll(tasks[i]);
    }
    FilterKeepsAll(tasks, (t: Task) => PassesPageFilters(t, ClearedFilters));
  }

  /** The service filter set that asks `getTasks` the same question as the page's selectors. */
  function AsServiceFilters(f: PageFilters): TaskService.TaskFilters
  {
    TaskService.TaskFilters(
      if f.statusFilter.All? then None else Some(f.statusFilter.value),
      if f.priorityFilter.All? then None else Some(f.priorityFilter.value),
      if f.assigneeFilter == AllAssignees then None else Some(f.assigneeFilter),
      Some(f.search))
  }

  /**
    The page filter and the service filter agree: `filteredTasks` is the
    service listing for the corresponding filter set, as long as the assignee
    selector is not the empty string (which the page compares with and the
    service ignores as falsy).
  */
  lemma PageAgreesWithService(tasks: seq<Task>, f: PageFilters)
    requires f.assigneeFilter != ""
    ensures FilteredTasks(tasks, f) == TaskService.Listing(tasks, AsServiceFilters(f))
  {
    var g := AsServiceFilters(f);
    forall t: Task ensures PassesPageFilters(t, f) == TaskService.MatchesFilters(t, g) {
      if f.search == "" {
        EmptySearchPassesAll(t);
      }
    }
    FilterExtensional(tasks, (t: Task) => PassesPageFilters(t, f),
      (t: Task) => TaskService.MatchesFilters(t, g));
  }

  /** The two texts under "No tasks found". */
  datatype EmptyNotice = CreateFirstTask | AdjustFilters

  /** The notice shown below an empty listing, if the listing is empty. */
  function Notice(tasks: seq<Task>, filtered: seq<Task>): (n: Option<EmptyNotice>)
    ensures n.Some? <==> filtered == []
    ensures n == Some(CreateFirstTask) <==> filtered == [] && tasks == []
    ensures n == Some(AdjustFilters) <==> filtered == [] && tasks != []
  {
    if |filtered| == 0 then Some(if |tasks| == 0 then CreateFirstTask else AdjustFilters) else None
  }

  /**
    A notice is shown exactly when nothing is listed; it invites creating the
    first task exactly when there are no tasks at all, and otherwise suggests
    adjusting the filters.
  */
  lemma NoticeChoice(tasks: seq<Task>, f: PageFilters)
    ensures var listed := FilteredTasks(tasks, f);
      var n := Notice(tasks, listed);
      && (n.Some? <==> listed == [])
      && (n == Some(CreateFirstTask) <==> tasks == [])
      && (n == Some(AdjustFilters) <==> tasks != [] && listed == [])
  {
  }

  /** With the filters cleared, "adjust filters" is never shown. */
  lemma ClearedNeverSaysAdjust(tasks: seq<Task>)
    ensures Notice(tasks, FilteredTasks(tasks, ClearedFilters)) != Some(AdjustFilters)
  {
    ClearedFiltersShowEverything(tasks);
  }

  /** The four `useState` hooks holding the page's filter state. */
  class FilterState {
    var search: string
    var statusFilter: Choice<TaskStatus>
    var priorityFilter: Choice<TaskPriority>
    var assigneeFilter: string

    function Current(): PageFilters
      reads this
    {
      PageFilters(search, statusFilter, priorityFilter, assigneeFilter)
    }

    /** `useState('')`, `useState('all')` three times. */
    constructor ()
      ensures Current() == ClearedFilters
    {
      search := "";
      statusFilter := All;
      priorityFilter := All;
      assigneeFilter := AllAssignees;
    }

    /** `clearFilters()`: resets the four pieces of state, after which every task is listed. */
    method ClearFilters()
      modifies this
      ensures Current() == ClearedFilters
      ensures forall tasks :: FilteredTasks(tasks, Current()) == tasks
    {
      search := "";
      statusFilter := All;
      priorityFilter := All;
      assigneeFilter := AllAssignees;
      forall tasks: seq<Task> ensures FilteredTasks(tasks, Current()) == tasks {
        ClearedFiltersShowEverything(tasks);
      }
    }
  }
}
