/**
 * The board view (frontend/components/tasks/KanbanView.tsx): one column per status,
 * and drag and drop between columns, which sends a status-only update.
 */
module Kanban {
  import opened Wrappers
  import opened Types
  import opened Validation
  import opened TaskQueries
  import opened TasksService

  const Columns: seq<TaskStatus> := [Pending, InProgress, Completed]

  /** The drag state of the board. */
  datatype Board = Board(dragged: Option<Task>)

  const Idle := Board(None)

  /** `getTasksByStatus`: the tasks of one column, in list order. */
  function TasksByStatus(tasks: seq<Task>, s: TaskStatus): (r: seq<Task>)
    ensures |r| <= |tasks|
    ensures forall t :: t in r <==> t in tasks && t.status == s
  {
    forall t ensures t in Filter(tasks, HasStatus(s)) <==> t in tasks && t.status == s {
      FilterMembers(tasks, HasStatus(s), t);
    }
    Filter(tasks, HasStatus(s))
  }

  function DragStart(b: Board, t: Task): (r: Board)
    ensures r.dragged == Some(t)
  {
    Board(Some(t))
  }

  /**
   * `handleDrop`: an update for the dragged task when it moves to another column,
   * nothing otherwise; the drag ends either way.
   */
  function Drop(b: Board, s: TaskStatus): (r: (Board, Option<(string, UpdateTaskDto)>))
    ensures r.0 == Idle
    ensures r.1.Some? <==> b.dragged.Some? && b.dragged.value.status != s
    ensures r.1.Some? ==> r.1.value == (b.dragged.value.id, StatusOnly(s))
  {
    match b.dragged
    case Some(t) => if t.status != s then (Idle, Some((t.id, StatusOnly(s)))) else (Idle, None)
    case None => (Idle, None)
  }

  // ---- Properties ----

  /**
   * A column keeps the list order: the column of a concatenation is the concatenation
   * of the columns, and a single task forms its own column or none.
   */
  lemma ColumnKeepsOrder(a: seq<Task>, b: seq<Task>, t: Task, s: TaskStatus)
    ensures TasksByStatus(a + b, s) == TasksByStatus(a, s) + TasksByStatus(b, s)
    ensures TasksByStatus([t], s) == if t.status == s then [t] else []
  {
    FilterAppend(a, b, HasStatus(s));
    FilterSingleton(t, HasStatus(s));
  }

  /** The three columns share the tasks out: their sizes add up to the number of tasks. */
  lemma ColumnsPartition(tasks: seq<Task>)
    ensures |TasksByStatus(tasks, Columns[0])| + |TasksByStatus(tasks, Columns[1])|
              + |TasksByStatus(tasks, Columns[2])| == |tasks|
  {
    StatusCountsSum(tasks);
  }

  /**
   * Dragging a task onto another column sends one update; applied on the server it moves
   * the task to that column's status and changes nothing else. Dropping on its own
   * column sends nothing.
   */
  lemma DragAndDrop(b: Board, t: Task, s: TaskStatus)
    ensures var (b', upd) := Drop(DragStart(b, t), s);
      && b' == Idle
      && (t.status == s ==> upd.None?)
      && (t.status != s ==> upd.Some? && upd.value.0 == t.id
                            && ApplyUpdate(t, upd.value.1) == t.(status := s))
  {
    StatusNameRoundTrip(s);
  }

  /** Dropping without a drag sends nothing. */
  lemma DropWithoutDrag(s: TaskStatus)
    ensures Drop(Idle, s) == (Idle, None)
  {
  }
}
