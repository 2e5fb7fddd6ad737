/** The entities shared by the services and pages (src/types/index.ts). */
module Types {
  import opened Wrappers

  /** `'pending' | 'in-progress' | 'completed'` */
  datatype TaskStatus = Pending | InProgress | Completed

  /** `'low' | 'medium' | 'high'` */
  datatype TaskPriority = Low | Medium | High

  /** Ids and ISO timestamps are opaque strings. */
  type Id = string
  type Timestamp = string

  datatype Employee = Employee(
    id: Id,
    name: string,
    email: string,
    department: string,
    position: string,
    avatar: Option<string>,
    joinedAt: Timestamp)

  datatype Task = Task(
    id: Id,
    title: string,
    description: string,
    status: TaskStatus,
    priority: TaskPriority,
    assigneeId: Id,
    dueDate: Timestamp,
    createdAt: Timestamp,
    updatedAt: Timestamp)

  /** The `error` slot of a service reply. */
  datatype ServiceError =
    | TaskNotFound           // 'Task not found'
    | EmployeeNotFound       // 'Employee not found'
    | DatabaseNotConfigured  // 'Database not configured', the non-mock branch

  /** The `{ data, error }` pair every service entry point returns instead of throwing. */
  datatype Reply<T> = Reply(data: T, error: Option<ServiceError>)
  {
    predicate Ok() { error.None? }
  }
}
