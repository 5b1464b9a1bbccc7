/**
 * The request validators of the task endpoints (backend/src/tasks/dto/create-task.dto.ts
 * and query-task.dto.ts). Each validator returns the list of violations, in declaration
 * order, the way the validation layer reports them; a request is accepted iff the list
 * is empty. `isDate` stands for the date-string check of the validation library.
 */
module Validation {
  import opened Wrappers
  import opened Types

  const TitleMinLength := 3
  const TitleMaxLength := 200
  const DescriptionMaxLength := 1000

  /** The values `sortBy` may take. */
  const SortFields: set<string> := {"createdAt", "updatedAt", "dueDate", "priority", "status"}

  /** The values `order` may take. */
  const SortOrders: set<string> := {"ASC", "DESC"}

  datatype Violation =
    | TitleTooShort
    | TitleTooLong
    | DescriptionTooLong
    | InvalidStatus
    | InvalidPriority
    | InvalidDueDate
    | PageNotPositive
    | LimitNotPositive
    | InvalidSortBy
    | InvalidOrder
  {
    /** The message the DTO attaches to the rule; None where it keeps the library's default. */
    function Message(): Option<string> {
      match this
      case TitleTooShort => Some("Título deve ter no mínimo 3 caracteres")
      case TitleTooLong => Some("Título deve ter no máximo 200 caracteres")
      case DescriptionTooLong => Some("Descrição deve ter no máximo 1000 caracteres")
      case InvalidStatus => Some("Status inválido")
      case InvalidPriority => Some("Prioridade inválida")
      case InvalidDueDate => Some("Data de vencimento inválida")
      case _ => None
    }
  }

  // ---- Field rules, each read directly off one decorator block ----

  predicate TitleValid(title: string) {
    TitleMinLength <= |title| <= TitleMaxLength
  }

  /** An optional field is skipped when absent. */
  predicate DescriptionValid(d: Option<string>) {
    d.None? || |d.value| <= DescriptionMaxLength
  }

  predicate StatusValid(s: Option<string>) {
    s.None? || ParseStatus(s.value).Some?
  }

  predicate PriorityValid(p: Option<string>) {
    p.None? || ParsePriority(p.value).Some?
  }

  predicate DueDateValid(d: Option<string>, isDate: string -> bool) {
    d.None? || isDate(d.value)
  }

  predicate AtLeastOne(n: Option<int>) {
    n.None? || n.value >= 1
  }

  predicate SortByValid(s: Option<string>) {
    s.None? || s.value in SortFields
  }

  predicate OrderValid(o: Option<string>) {
    o.None? || o.value in SortOrders
  }

  predicate CreateTaskValid(d: CreateTaskDto, isDate: string -> bool) {
    && TitleValid(d.title)
    && DescriptionValid(d.description)
    && StatusValid(d.status)
    && PriorityValid(d.priority)
    && DueDateValid(d.dueDate, isDate)
  }

  /** The update body is the create body with every rule made optional. */
  predicate UpdateTaskValid(d: UpdateTaskDto, isDate: string -> bool) {
    && (d.title.None? || TitleValid(d.title.value))
    && DescriptionValid(d.description)
    && StatusValid(d.status)
    && PriorityValid(d.priority)
    && DueDateValid(d.dueDate, isDate)
  }

  predicate QueryValid(q: QueryTaskDto) {
    && AtLeastOne(q.page)
    && AtLeastOne(q.limit)
    && StatusValid(q.status)
    && PriorityValid(q.priority)
    && SortByValid(q.sortBy)
    && OrderValid(q.order)
  }

  function If(c: bool, v: Violation): seq<Violation> {
    if c then [] else [v]
  }

  function TitleViolations(title: string): (r: seq<Violation>)
    ensures r == [] <==> TitleValid(title)
    ensures |r| <= 1
    ensures r == [TitleTooShort] <==> |title| < TitleMinLength
    ensures r == [TitleTooLong] <==> |title| > TitleMaxLength
  {
    if |title| < TitleMinLength then [TitleTooShort]
    else if |title| > TitleMaxLength then [TitleTooLong]
    else []
  }

  /** The checks the create and update bodies share, on the four fields after the title. */
  function BodyFieldViolations(description: Option<string>, status: Option<string>,
                               priority: Option<string>, dueDate: Option<string>,
                               isDate: string -> bool): (r: seq<Violation>)
    ensures r == [] <==> DescriptionValid(description) && StatusValid(status)
                         && PriorityValid(priority) && DueDateValid(dueDate, isDate)
    ensures DescriptionTooLong in r <==> !DescriptionValid(description)
    ensures InvalidStatus in r <==> !StatusValid(status)
    ensures InvalidPriority in r <==> !PriorityValid(priority)
    ensures InvalidDueDate in r <==> !DueDateValid(dueDate, isDate)
    ensures TitleTooShort !in r && TitleTooLong !in r
    ensures |r| <= 4
  {
    If(DescriptionValid(description), DescriptionTooLong)
    + If(StatusValid(status), InvalidStatus)
    + If(PriorityValid(priority), InvalidPriority)
    + If(DueDateValid(dueDate, isDate), InvalidDueDate)
  }

  /** All violations of a create body; empty exactly when the body is valid. */
  function CreateTaskViolations(d: CreateTaskDto, isDate: string -> bool): (r: seq<Violation>)
    ensures r == [] <==> CreateTaskValid(d, isDate)
    ensures TitleTooShort in r <==> |d.title| < TitleMinLength
    ensures TitleTooLong in r <==> |d.title| > TitleMaxLength
    ensures DescriptionTooLong in r <==> !DescriptionValid(d.description)
    ensures InvalidStatus in r <==> !StatusValid(d.status)
    ensures InvalidPriority in r <==> !PriorityValid(d.priority)
    ensures InvalidDueDate in r <==> !DueDateValid(d.dueDate, isDate)
    ensures |r| <= 5
  {
    TitleViolations(d.title)
    + BodyFieldViolations(d.description, d.status, d.priority, d.dueDate, isDate)
  }

  /** All violations of an update body; empty exactly when the body is valid. */
  function UpdateTaskViolations(d: UpdateTaskDto, isDate: string -> bool): (r: seq<Violation>)
    ensures r == [] <==> UpdateTaskValid(d, isDate)
    ensures TitleTooShort in r <==> d.title.Some? && |d.title.value| < TitleMinLength
    ensures TitleTooLong in r <==> d.title.Some? && |d.title.value| > TitleMaxLength
    ensures DescriptionTooLong in r <==> !DescriptionValid(d.description)
    ensures InvalidStatus in r <==> !StatusValid(d.status)
    ensures InvalidPriority in r <==> !PriorityValid(d.priority)
    ensures InvalidDueDate in r <==> !DueDateValid(d.dueDate, isDate)
    ensures |r| <= 5
  {
    (if d.title.Some? then TitleViolations(d.title.value) else [])
    + BodyFieldViolations(d.description, d.status, d.priority, d.dueDate, isDate)
  }

  /** The checks on the enum and sort keys of a list query. */
  function SelectionViolations(q: QueryTaskDto): (r: seq<Violation>)
    ensures r == [] <==> StatusValid(q.status) && PriorityValid(q.priority)
                         && SortByValid(q.sortBy) && OrderValid(q.order)
    ensures InvalidStatus in r <==> !StatusValid(q.status)
    ensures InvalidPriority in r <==> !PriorityValid(q.priority)
    ensures InvalidSortBy in r <==> !SortByValid(q.sortBy)
    ensures InvalidOrder in r <==> !OrderValid(q.order)
    ensures PageNotPositive !in r && LimitNotPositive !in r
  {
    If(StatusValid(q.status), InvalidStatus)
    + If(PriorityValid(q.priority), InvalidPriority)
    + If(SortByValid(q.sortBy), InvalidSortBy)
    + If(OrderValid(q.order), InvalidOrder)
  }

  /** All violations of a list query; empty exactly when the query is valid. */
  function QueryViolations(q: QueryTaskDto): (r: seq<Violation>)
    ensures r == [] <==> QueryValid(q)
    ensures PageNotPositive in r <==> q.page.Some? && q.page.value < 1
    ensures LimitNotPositive in r <==> q.limit.Some? && q.limit.value < 1
    ensures InvalidStatus in r <==> !StatusValid(q.status)
    ensures InvalidPriority in r <==> !PriorityValid(q.priority)
    ensures InvalidSortBy in r <==> !SortByValid(q.sortBy)
    ensures InvalidOrder in r <==> !OrderValid(q.order)
  {
    If(AtLeastOne(q.page), PageNotPositive)
    + If(AtLeastOne(q.limit), LimitNotPositive)
    + SelectionViolations(q)
  }
}
