/**
  The employee service (src/services/employeeService.ts). Unlike the task
  service it never assigns anything: every function only reads the mock
  employee list, so it is modelled as functions of that (immutable) list.
  `createEmployee`, `updateEmployee` and `deleteEmployee` answer as if they
  had written, but the list they read afterwards is the same list.
*/
module EmployeeService {
  import opened Wrappers
  import opened Seqs
  import opened Types

  /** `getEmployees()`: the whole list, unfiltered. */
  function GetEmployees(mockEmployees: seq<Employee>, useMockData: bool): (r: Reply<seq<Employee>>)
    ensures useMockData ==> r.Ok() && r.data == mockEmployees
    ensures !useMockData ==> r == Reply([], Some(DatabaseNotConfigured))
  {
    if useMockData then Reply(mockEmployees, None) else Reply([], Some(DatabaseNotConfigured))
  }

  /** `getEmployeeById(id)`: the first employee with that id; absence is `null` and not an error. */
  function GetEmployeeById(mockEmployees: seq<Employee>, id: Id, useMockData: bool): (r: Reply<Option<Employee>>)
    ensures useMockData ==> r.Ok()
    ensures useMockData ==> (r.data.None? <==> forall i :: 0 <= i < |mockEmployees| ==> mockEmployees[i].id != id)
    ensures useMockData && r.data.Some? ==>
      exists i :: IsFirst(mockEmployees, i, (e: Employee) => e.id == id) && mockEmployees[i] == r.data.value
    ensures !useMockData ==> r == Reply(None, Some(DatabaseNotConfigured))
  {
    if useMockData then Reply(Find(mockEmployees, (e: Employee) => e.id == id), None)
    else Reply(None, Some(DatabaseNotConfigured))
  }

  /** `Omit<Employee, 'id'>`, the argument of `createEmployee`. */
  datatype EmployeeDraft = EmployeeDraft(
    name: string,
    email: string,
    department: string,
    position: string,
    avatar: Option<string>,
    joinedAt: Timestamp)

  function DraftOf(e: Employee): EmployeeDraft
  {
    EmployeeDraft(e.name, e.email, e.department, e.position, e.avatar, e.joinedAt)
  }

  /** `createEmployee(draft)`: the draft with the generated id; the list is not extended. */
  function CreateEmployee(draft: EmployeeDraft, generatedId: Id, useMockData: bool): (r: Reply<Option<Employee>>)
    ensures useMockData ==> r.Ok() && r.data.Some?
    ensures useMockData ==> DraftOf(r.data.value) == draft && r.data.value.id == generatedId
    ensures !useMockData ==> r == Reply(None, Some(DatabaseNotConfigured))
  {
    if useMockData then
      Reply(Some(Employee(generatedId, draft.name, draft.email, draft.department, draft.position,
                          draft.avatar, draft.joinedAt)), None)
    else Reply(None, Some(DatabaseNotConfigured))
  }

  /** `Partial<Employee>`: every field, `id` included, may be overridden. */
  datatype EmployeePatch = EmployeePatch(
    id: Option<Id>,
    name: Option<string>,
    email: Option<string>,
    department: Option<string>,
    position: Option<string>,
    avatar: Option<string>,
    joinedAt: Option<Timestamp>)

  const EmptyEmployeePatch := EmployeePatch(None, None, None, None, None, None, None)

  /** `{ ...employee, ...updates }` */
  function MergeEmployee(stored: Employee, patch: EmployeePatch): Employee
  {
    Employee(
      Override(patch.id, stored.id),
      Override(patch.name, stored.name),
      Override(patch.email, stored.email),
      Override(patch.department, stored.department),
      Override(patch.position, stored.position),
      if patch.avatar.Some? then patch.avatar else stored.avatar,
      Override(patch.joinedAt, stored.joinedAt))
  }

  /** A patch field that is present wins; one that is absent keeps the stored value. */
  lemma MergeEmployeeFields(stored: Employee, patch: EmployeePatch)
    ensures var r := MergeEmployee(stored, patch);
      && r.id == (if patch.id.Some? then patch.id.value else stored.id)
      && r.name == (if patch.name.Some? then patch.name.value else stored.name)
      && r.email == (if patch.email.Some? then patch.email.value else stored.email)
      && r.department == (if patch.department.Some? then patch.department.value else stored.department)
      && r.position == (if patch.position.Some? then patch.position.value else stored.position)
      && r.avatar == (if patch.avatar.Some? then patch.avatar else stored.avatar)
      && r.joinedAt == (if patch.joinedAt.Some? then patch.joinedAt.value else stored.joinedAt)
    ensures MergeEmployee(stored, EmptyEmployeePatch) == stored
  {
  }

  /**
    `updateEmployee(id, updates)`: the first employee with that id merged with
    the patch, or `EmployeeNotFound`; the list itself is not changed.
  */
  function UpdateEmployee(mockEmployees: seq<Employee>, id: Id, patch: EmployeePatch, useMockData: bool)
    : (r: Reply<Option<Employee>>)
    ensures useMockData && (forall i :: 0 <= i < |mockEmployees| ==> mockEmployees[i].id != id) ==>
      r == Reply(None, Some(EmployeeNotFound))
    ensures useMockData && r.data.Some? ==>
      r.Ok() && exists i :: IsFirst(mockEmployees, i, (e: Employee) => e.id == id)
                         && r.data.value == MergeEmployee(mockEmployees[i], patch)
    ensures useMockData && (exists i :: 0 <= i < |mockEmployees| && mockEmployees[i].id == id) ==> r.data.Some?
    ensures !useMockData ==> r == Reply(None, Some(DatabaseNotConfigured))
  {
    if !useMockData then Reply(None, Some(DatabaseNotConfigured))
    else
      match Find(mockEmployees, (e: Employee) => e.id == id)
      case None => Reply(None, Some(EmployeeNotFound))
      case Some(employee) => Reply(Some(MergeEmployee(employee, patch)), None)
  }

  /** `deleteEmployee(id)`: succeeds and removes nothing. */
  function DeleteEmployee(id: Id, useMockData: bool): (error: Option<ServiceError>)
    ensures useMockData <==> error.None?
    ensures !useMockData ==> error == Some(DatabaseNotConfigured)
  {
    if useMockData then None else Some(DatabaseNotConfigured)
  }

  /**
    A missing id is an answer for a lookup but an error for an update:
    `getEmployeeById` replies `(null, null)`, `updateEmployee` replies
    `(null, EmployeeNotFound)`.
  */
  lemma MissingIdLookupVersusUpdate(mockEmployees: seq<Employee>, id: Id, patch: EmployeePatch)
    requires forall i :: 0 <= i < |mockEmployees| ==> mockEmployees[i].id != id
    ensures GetEmployeeById(mockEmployees, id, true) == Reply(None, None)
    ensures UpdateEmployee(mockEmployees, id, patch, true) == Reply(None, Some(EmployeeNotFound))
  {
  }

  /** An update with an empty patch returns what the lookup of the same id returns. */
  lemma EmptyUpdateIsLookup(mockEmployees: seq<Employee>, id: Id)
    requires exists i :: 0 <= i < |mockEmployees| && mockEmployees[i].id == id
    ensures UpdateEmployee(mockEmployees, id, EmptyEmployeePatch, true)
         == GetEmployeeById(mockEmployees, id, true)
  {
  }

  /** An update whose patch carries an id returns a record with that id, even another one. */
  lemma UpdateMayOverrideId(mockEmployees: seq<Employee>, id: Id, patch: EmployeePatch)
    requires patch.id.Some?
    requires exists i :: 0 <= i < |mockEmployees| && mockEmployees[i].id == id
    ensures UpdateEmployee(mockEmployees, id, patch, true).data.value.id == patch.id.value
  {
  }

  /**
    Creation does not persist: a generated id that no stored employee has is
    still not found afterwards, because the list read is the same list.
  */
  lemma CreatedEmployeeIsNotRetrievable(mockEmployees: seq<Employee>, draft: EmployeeDraft, generatedId: Id)
    requires forall i :: 0 <= i < |mockEmployees| ==> mockEmployees[i].id != generatedId
    ensures CreateEmployee(draft, generatedId, true).data.value.id == generatedId
    ensures GetEmployeeById(mockEmployees, generatedId, true).data.None?
    ensures GetEmployees(mockEmployees, true).data == mockEmployees
  {
  }
}
