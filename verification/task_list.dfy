/**
 * The list view (frontend/components/tasks/TaskList.tsx): the completion checkbox and
 * the pagination controls under the list.
 */
module TaskList {
  import opened Wrappers
  import opened Types
  import opened Validation
  import opened TasksStore
  import opened TasksService

  /** The checkbox: a completed task goes back to pending, anything else becomes completed. */
  function Toggle(s: TaskStatus): (r: TaskStatus)
    ensures (r == Completed) <==> (s != Completed)
    ensures s == Completed ==> r == Pending
  {
    if s == Completed then Pending else Completed
  }

  /** `toggleComplete`: the id and the body of the update it sends. */
  function ToggleComplete(t: Task): (r: (string, UpdateTaskDto))
    ensures r.0 == t.id
    ensures r.1.title.None? && r.1.description.None? && r.1.priority.None? && r.1.dueDate.None?
    ensures r.1.status == Some(StatusName(Toggle(t.status)))
  {
    (t.id, StatusOnly(Toggle(t.status)))
  }

  /** The pagination bar: absent, or present with the disabled state of each button. */
  datatype Controls = Hidden | Shown(prevDisabled: bool, nextDisabled: bool)

  /** An empty list returns early, before the bar; otherwise the bar shows when there are pages to move between. */
  function Pagination(tasks: seq<Task>, meta: Meta): (r: Controls)
    ensures r.Shown? <==> |tasks| > 0 && meta.totalPages > 1
    ensures r.Shown? ==> (r.prevDisabled <==> meta.page == 1) && (r.nextDisabled <==> meta.page == meta.totalPages)
  {
    if |tasks| == 0 then Hidden
    else if meta.totalPages > 1 then Shown(meta.page == 1, meta.page == meta.totalPages)
    else Hidden
  }

  function Previous(f: Filters, meta: Meta): (r: Filters)
    ensures r == f.(page := Some(meta.page - 1))
  {
    SetFilters(f, EmptyPatch.(page := Some(Some(meta.page - 1))))
  }

  function Next(f: Filters, meta: Meta): (r: Filters)
    ensures r == f.(page := Some(meta.page + 1))
  {
    SetFilters(f, EmptyPatch.(page := Some(Some(meta.page + 1))))
  }

  // ---- Properties ----

  /** Toggling twice restores pending and completed, and sends in-progress to pending. */
  lemma ToggleTwice(s: TaskStatus)
    ensures s != InProgress ==> Toggle(Toggle(s)) == s
    ensures s == InProgress ==> Toggle(Toggle(s)) == Pending
  {
  }

  /** The toggle body passes validation, and applying it on the server changes the status alone. */
  lemma ToggleChangesOnlyStatus(t: Task, isDate: string -> bool)
    ensures UpdateTaskValid(ToggleComplete(t).1, isDate)
    ensures ApplyUpdate(t, ToggleComplete(t).1) == t.(status := Toggle(t.status))
  {
    var body := ToggleComplete(t).1;
    StatusNameRoundTrip(Toggle(t.status));
    assert ParseStatus(body.status.value) == Some(Toggle(t.status));
  }

  /**
   * For a response the server computed, an enabled button moves to a page between 1
   * and the last page, and the filters it produces are still a valid query.
   */
  lemma PaginationStaysInBounds(store: seq<Task>, q: QueryTaskDto, userId: string, f: Filters)
    requires QueryValid(q) && QueryValid(f)
    ensures var resp := ComputePage(store, q, userId);
      var c := Pagination(resp.data, resp.meta);
      && (c.Shown? && !c.prevDisabled ==>
            1 <= resp.meta.page - 1 <= resp.meta.totalPages && QueryValid(Previous(f, resp.meta)))
      && (c.Shown? && !c.nextDisabled ==>
            1 <= resp.meta.page + 1 <= resp.meta.totalPages && QueryValid(Next(f, resp.meta)))
  {
    var resp := ComputePage(store, q, userId);
    if resp.data != [] {
      PageWithinBounds(store, q, userId);
    }
  }
}
