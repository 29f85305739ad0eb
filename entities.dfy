/**
 * The portal's three record types (client, project, task) and the string
 * names of their enumerated fields, shared by the fixtures, the search
 * route and the task views.
 *
 * Dates are whole days written as `YYYYMMDD` integers, which order like the
 * dates they stand for; creation and update stamps, avatars and Notion ids
 * carry no behaviour in the modelled code and are not part of the records.
 */
module Entities {
  import opened Common

  datatype ClientStatus = Active | Inactive | Pending
  datatype ProjectStatus = NotStarted | Started | OnHold | Completed | Cancelled
  datatype Priority = Low | Medium | High | Urgent
  datatype TaskStatus = Todo | InProgress | Review | Done | Blocked

  function ClientStatusName(s: ClientStatus): string
  {
    match s
    case Active => "active"
    case Inactive => "inactive"
    case Pending => "pending"
  }

  function ProjectStatusName(s: ProjectStatus): string
  {
    match s
    case NotStarted => "not_started"
    case Started => "in_progress"
    case OnHold => "on_hold"
    case Completed => "completed"
    case Cancelled => "cancelled"
  }

  function PriorityName(p: Priority): string
  {
    match p
    case Low => "low"
    case Medium => "medium"
    case High => "high"
    case Urgent => "urgent"
  }

  function TaskStatusName(s: TaskStatus): string
  {
    match s
    case Todo => "todo"
    case InProgress => "in_progress"
    case Review => "review"
    case Done => "done"
    case Blocked => "blocked"
  }

  /** Distinct task statuses have distinct names, so comparing names compares statuses. */
  lemma TaskStatusNameInjective(a: TaskStatus, b: TaskStatus)
    ensures TaskStatusName(a) == TaskStatusName(b) <==> a == b
  {
  }

  datatype Client = Client(id: string, name: string, email: string, company: string, status: ClientStatus)

  datatype Project = Project(
    id: string,
    name: string,
    description: string,
    clientId: string,
    status: ProjectStatus,
    priority: Priority,
    startDate: Option<int>,
    dueDate: Option<int>,
    budget: Option<int>)

  datatype Task = Task(
    id: string,
    title: string,
    description: Option<string>,
    projectId: string,
    assignee: Option<string>,
    status: TaskStatus,
    priority: Priority,
    dueDate: Option<int>,
    estimatedHours: Option<int>,
    actualHours: Option<int>,
    tags: seq<string>)
}
