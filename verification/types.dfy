/** The shared records and enumerations of the task manager (frontend/lib/types.ts). */
module Types {
  import opened Wrappers

  datatype TaskStatus = Pending | InProgress | Completed

  datatype TaskPriority = Low | Medium | High

  /** The string an enum member has on the wire and in the database. */
  function StatusName(s: TaskStatus): string {
    match s
    case Pending => "pending"
    case InProgress => "in_progress"
    case Completed => "completed"
  }

  function PriorityName(p: TaskPriority): string {
    match p
    case Low => "low"
    case Medium => "medium"
    case High => "high"
  }

  /** Reads a wire string back as a status; None for anything that is not a member. */
  function ParseStatus(s: string): (r: Option<TaskStatus>)
    ensures r.Some? <==> s in {"pending", "in_progress", "completed"}
    ensures r.Some? ==> StatusName(r.value) == s
  {
    if s == "pending" then Some(Pending)
    else if s == "in_progress" then Some(InProgress)
    else if s == "completed" then Some(Completed)
    else None
  }

  function ParsePriority(s: string): (r: Option<TaskPriority>)
    ensures r.Some? <==> s in {"low", "medium", "high"}
    ensures r.Some? ==> PriorityName(r.value) == s
  {
    if s == "low" then Some(Low)
    else if s == "medium" then Some(Medium)
    else if s == "high" then Some(High)
    else None
  }

  lemma StatusNameRoundTrip(s: TaskStatus)
    ensures ParseStatus(StatusName(s)) == Some(s)
  {
  }

  lemma PriorityNameRoundTrip(p: TaskPriority)
    ensures ParsePriority(PriorityName(p)) == Some(p)
  {
  }

  /** A persisted task. Dates are the opaque strings the API returns. */
  datatype Task = Task(
    id: string,
    title: string,
    description: Option<string>,
    status: TaskStatus,
    priority: TaskPriority,
    dueDate: Option<string>,
    createdAt: string,
    updatedAt: string,
    userId: string)

  /**
   * The create request body. Enumerations stay raw strings: this is the value the
   * validators inspect, before anything has been checked.
   */
  datatype CreateTaskDto = CreateTaskDto(
    title: string,
    description: Option<string>,
    status: Option<string>,
    priority: Option<string>,
    dueDate: Option<string>)

  /** The update request body: every field of CreateTaskDto, each optional. */
  datatype UpdateTaskDto = UpdateTaskDto(
    title: Option<string>,
    description: Option<string>,
    status: Option<string>,
    priority: Option<string>,
    dueDate: Option<string>)

  /** An update body that carries nothing but a status. */
  function StatusOnly(s: TaskStatus): UpdateTaskDto {
    UpdateTaskDto(None, None, Some(StatusName(s)), None, None)
  }

  /** The list query, as the filter store holds it and as the server receives it. */
  datatype QueryTaskDto = QueryTaskDto(
    page: Option<int>,
    limit: Option<int>,
    status: Option<string>,
    priority: Option<string>,
    sortBy: Option<string>,
    order: Option<string>)

  datatype Meta = Meta(total: nat, page: int, limit: int, totalPages: int)

  datatype TasksResponse = TasksResponse(data: seq<Task>, meta: Meta)

  datatype User = User(id: string, email: string, name: string, createdAt: Option<string>)
}
