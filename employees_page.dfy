/**
  The list logic of the Employees page (src/pages/Employees.tsx): the
  free-text employee filter and the per-employee task count shown on each card.
*/
module EmployeesPage {
  import opened Seqs
  import opened Text
  import opened Types

  /** The search occurs, ignoring case, in the name, the email or the department. */
  predicate EmployeeMatches(e: Employee, search: string)
  {
    || MatchesIgnoringCase(e.name, search)
    || MatchesIgnoringCase(e.email, search)
    || MatchesIgnoringCase(e.department, search)
  }

  /** `filteredEmployees`: exactly the matching employees, in the order fetched. */
  function FilteredEmployees(employees: seq<Employee>, search: string): (r: seq<Employee>)
    ensures Sieved(r, employees, (e: Employee) => EmployeeMatches(e, search))
  {
    FilterSieves(employees, (e: Employee) => EmployeeMatches(e, search));
    Filter(employees, (e: Employee) => EmployeeMatches(e, search))
  }

  /** An empty search keeps every employee. */
  lemma EmptySearchKeepsEveryone(employees: seq<Employee>)
    ensures FilteredEmployees(employees, "") == employees
  {
    forall i | 0 <= i < |employees| ensures EmployeeMatches(employees[i], "") {
      EmptyQueryMatches(employees[i].name);
    }
    FilterKeepsAll(employees, (e: Employee) => EmployeeMatches(e, ""));
  }

  /** `getTaskCount(employeeId)`: how many tasks are assigned to the employee. */
  function TaskCount(tasks: seq<Task>, employeeId: Id): (n: nat)
    ensures n == CountWhere(tasks, (t: Task) => t.assigneeId == employeeId)
    ensures n <= |tasks|
  {
    FilterLength(tasks, (t: Task) => t.assigneeId == employeeId);
    |Filter(tasks, (t: Task) => t.assigneeId == employeeId)|
  }

  /** The count on a card is the length of the service's `getTasksByAssignee` listing. */
  lemma TaskCountIsAssigneeListingLength(tasks: seq<Task>, employeeId: Id, listed: seq<Task>)
    requires Sieved(listed, tasks, (t: Task) => t.assigneeId == employeeId)
    ensures TaskCount(tasks, employeeId) == |listed|
  {
    SievedUnique(listed, tasks, (t: Task) => t.assigneeId == employeeId);
  }
}
