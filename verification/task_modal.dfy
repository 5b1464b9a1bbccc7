/**
 * The create / edit dialog (frontend/components/tasks/TaskModal.tsx): its form state,
 * the prefill from the task being edited, the change handler shared by every input,
 * and the submitted body.
 */
module TaskModal {
  import opened Wrappers
  import opened Types
  import opened Validation
  import opened TasksService

  datatype Field = Title | Description | Status | Priority | DueDate

  /** The form state. Any field can become `undefined`: the change handler stores an emptied input as absent. */
  datatype Form = Form(
    title: Option<string>,
    description: Option<string>,
    status: Option<string>,
    priority: Option<string>,
    dueDate: Option<string>)

  /** The form a new task starts from. */
  const InitialForm := Form(Some(""), Some(""), Some("pending"), Some("medium"), None)

  function Get(f: Form, n: Field): Option<string> {
    match n
    case Title => f.title
    case Description => f.description
    case Status => f.status
    case Priority => f.priority
    case DueDate => f.dueDate
  }

  /**
   * The edit prefill: title, status and priority copied from the task, a missing
   * description shown as empty, and the due date cut to its calendar day by `dateOnly`
   * (`toISOString().split('T')[0]`).
   */
  function Prefill(t: Task, dateOnly: string -> string): (f: Form)
    ensures f.title == Some(t.title)
    ensures f.status == Some(StatusName(t.status)) && f.priority == Some(PriorityName(t.priority))
    ensures f.description == Some(OrElse(t.description, ""))
    ensures Truthy(t.dueDate) ==> f.dueDate == Some(dateOnly(t.dueDate.value))
    ensures !Truthy(t.dueDate) ==> f.dueDate.None?
  {
    Form(
      Some(t.title),
      Some(OrElse(t.description, "")),
      Some(StatusName(t.status)),
      Some(PriorityName(t.priority)),
      if Truthy(t.dueDate) then Some(dateOnly(t.dueDate.value)) else None)
  }

  /** `handleChange`: the named field takes the input's value, or becomes absent when it is empty. */
  function HandleChange(f: Form, n: Field, value: string): (r: Form)
    ensures Get(r, n) == OrUndefined(value)
    ensures forall m :: m != n ==> Get(r, m) == Get(f, m)
  {
    match n
    case Title => f.(title := OrUndefined(value))
    case Description => f.(description := OrUndefined(value))
    case Status => f.(status := OrUndefined(value))
    case Priority => f.(priority := OrUndefined(value))
    case DueDate => f.(dueDate := OrUndefined(value))
  }

  /**
   * `handleSubmit`: the form goes out as it is. Serialized as JSON, an absent field is
   * left out of the body, which the update endpoint reads as "leave unchanged".
   */
  function SubmitAsUpdate(f: Form): (body: UpdateTaskDto)
    ensures forall n :: Get(f, n) == BodyField(body, n)
  {
    UpdateTaskDto(f.title, f.description, f.status, f.priority, f.dueDate)
  }

  function BodyField(d: UpdateTaskDto, n: Field): Option<string> {
    match n
    case Title => d.title
    case Description => d.description
    case Status => d.status
    case Priority => d.priority
    case DueDate => d.dueDate
  }

  /** The `minLength` of the title input. */
  const TitleInputMinLength := 3

  /**
   * The browser submits the form only when the title input, which is `required` and
   * has `minLength` 3, holds at least three characters; an emptied title is absent.
   */
  predicate TitleAccepted(f: Form) {
    f.title.Some? && |f.title.value| >= TitleInputMinLength
  }

  /**
   * The create body: the form as it is, when the browser lets the form through. Every
   * title it lets through also meets the server's lower bound.
   */
  function SubmitAsCreate(f: Form): (body: Option<CreateTaskDto>)
    ensures body.Some? <==> f.title.Some? && |f.title.value| >= TitleInputMinLength
    ensures body.Some? ==> body.value.title == f.title.value && body.value.description == f.description
                           && body.value.status == f.status && body.value.priority == f.priority
                           && body.value.dueDate == f.dueDate
    ensures body.Some? ==> |body.value.title| >= TitleMinLength
  {
    if TitleAccepted(f) then Some(CreateTaskDto(f.title.value, f.description, f.status, f.priority, f.dueDate))
    else None
  }

  // ---- Properties ----

  /** The new-task form, untouched, is not submitted: its title is empty. */
  lemma UntouchedNewFormIsBlocked()
    ensures SubmitAsCreate(InitialForm).None?
  {
  }

  /** The later of two changes to one field wins; changes to different fields commute. */
  lemma ChangesCompose(f: Form, n: Field, m: Field, v: string, w: string)
    ensures HandleChange(HandleChange(f, n, v), n, w) == HandleChange(f, n, w)
    ensures n != m ==> HandleChange(HandleChange(f, n, v), m, w) == HandleChange(HandleChange(f, m, w), n, v)
  {
  }

  /**
   * Typing a title of acceptable length into a new form yields a body the server
   * accepts, with the defaults pending and medium and no due date.
   */
  lemma NewFormValidates(title: string, isDate: string -> bool)
    requires TitleValid(title)
    ensures var body := SubmitAsCreate(HandleChange(InitialForm, Title, title));
      && body == Some(CreateTaskDto(title, Some(""), Some("pending"), Some("medium"), None))
      && CreateTaskValid(body.value, isDate)
  {
    assert ParseStatus("pending").Some? && ParsePriority("medium").Some?;
  }

  /**
   * Saving an edit without touching any input keeps the task's title, status, priority,
   * owner and description; only an absent description becomes the empty string.
   */
  lemma UntouchedEditKeepsTask(t: Task, dateOnly: string -> string)
    ensures var r := ApplyUpdate(t, SubmitAsUpdate(Prefill(t, dateOnly)));
      && r.id == t.id && r.userId == t.userId
      && r.title == t.title && r.status == t.status && r.priority == t.priority
      && (Truthy(t.description) ==> r.description == t.description)
      && (!Truthy(t.description) ==> r.description == Some(""))
  {
    StatusNameRoundTrip(t.status);
    PriorityNameRoundTrip(t.priority);
  }

  /** Emptying an input in the edit form sends no value for it, so the server keeps the old one. */
  lemma ClearedFieldIsKept(t: Task, f: Form, n: Field)
    requires n == Description || n == DueDate
    requires StatusValid(f.status) && PriorityValid(f.priority)
    ensures var body := SubmitAsUpdate(HandleChange(f, n, ""));
      var r := ApplyUpdate(t, body);
      (n == Description ==> r.description == t.description) && (n == DueDate ==> r.dueDate == t.dueDate)
  {
  }
}
