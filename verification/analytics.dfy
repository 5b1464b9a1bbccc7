/**
 * The analytics overview (backend/src/analytics/analytics.service.ts): integer counts
 * over one user's tasks, read fresh from the store on every call. `now` is the clock
 * reading and `instant` the date parser, both inputs.
 */
module Analytics {
  import opened Wrappers
  import opened Types
  import opened TaskQueries
  import opened Arith

  datatype ByStatus = ByStatus(pending: nat, inProgress: nat, completed: nat)

  datatype ByPriority = ByPriority(low: nat, medium: nat, high: nat)

  datatype Overview = Overview(
    total: nat,
    completed: nat,
    pending: nat,
    inProgress: nat,
    highPriority: nat,
    overdue: nat,
    completionRate: int,
    byStatus: ByStatus,
    byPriority: ByPriority)

  /** `Math.round(n / d)` for non-negative integers: halves round up. */
  function RoundHalfUp(n: nat, d: nat): nat
    requires d > 0
  {
    (2 * n + d) / (2 * d)
  }

  /** A share of at most the whole rounds to at most 100 percent. */
  lemma PercentAtMostHundred(completed: nat, total: nat)
    requires 0 < total && completed <= total
    ensures RoundHalfUp(100 * completed, total) <= 100
  {
    var x := 2 * (100 * completed) + total;
    var m := 2 * total;
    var q := x / m;
    assert q * m <= x;
    assert x < 101 * m;
    FactorBelow(q, 101, m);
  }

  /** Completed share of all tasks in percent, rounded; 0 when there are no tasks. */
  function CompletionRate(completed: nat, total: nat): (r: int)
    requires completed <= total
    ensures total == 0 ==> r == 0
    ensures 0 <= r <= 100
    ensures completed == 0 ==> r == 0
  {
    if total > 0 then
      PercentAtMostHundred(completed, total);
      RoundHalfUp(100 * completed, total)
    else 0
  }

  /** The source's overdue filter: a due date before now on a task not yet completed. */
  function OverdueAt(now: int, instant: string -> Option<int>): Criterion {
    And(DueBefore(now, instant), Not(HasStatus(Completed)))
  }

  /** `getOverview`: the counts over the user's tasks. */
  function GetOverview(store: seq<Task>, userId: string, now: int, instant: string -> Option<int>)
    : (o: Overview)
    ensures o.total == |Owned(store, userId)|
    ensures o.completed == Count(Owned(store, userId), HasStatus(Completed))
    ensures o.pending == Count(Owned(store, userId), HasStatus(Pending))
    ensures o.inProgress == Count(Owned(store, userId), HasStatus(InProgress))
    ensures o.highPriority == Count(Owned(store, userId), HasPriority(High))
    ensures o.byPriority.low == Count(Owned(store, userId), HasPriority(Low))
    ensures o.byPriority.medium == Count(Owned(store, userId), HasPriority(Medium))
    ensures o.overdue == Count(Owned(store, userId), OverdueAt(now, instant))
    ensures o.completionRate == CompletionRate(o.completed, o.total)
    ensures o.total == o.completed + o.pending + o.inProgress
    ensures o.byStatus == ByStatus(o.pending, o.inProgress, o.completed)
    ensures o.byPriority.low + o.byPriority.medium + o.byPriority.high == o.total
    ensures o.byPriority.high == o.highPriority
    ensures o.total == 0 ==> o.completionRate == 0
    ensures 0 <= o.completionRate <= 100
    ensures o.overdue <= o.total - o.completed
  {
    var tasks := Owned(store, userId);
    var total := |tasks|;
    var completed := Count(tasks, HasStatus(Completed));
    var pending := Count(tasks, HasStatus(Pending));
    var inProgress := Count(tasks, HasStatus(InProgress));
    var highPriority := Count(tasks, HasPriority(High));
    var overdue := Count(tasks, OverdueAt(now, instant));
    StatusCountsSum(tasks);
    PriorityCountsSum(tasks);
    CountSplit(tasks, HasStatus(Completed));
    CountMonotone(tasks, OverdueAt(now, instant), Not(HasStatus(Completed)));
    Overview(
      total, completed, pending, inProgress, highPriority, overdue,
      CompletionRate(completed, total),
      ByStatus(pending, inProgress, completed),
      ByPriority(Count(tasks, HasPriority(Low)), Count(tasks, HasPriority(Medium)), highPriority))
  }

  /** Another user's task changes nothing in the overview. */
  lemma OverviewIgnoresOtherUsers(store: seq<Task>, t: Task, userId: string, now: int,
                                  instant: string -> Option<int>)
    requires t.userId != userId
    ensures GetOverview(store + [t], userId, now, instant) == GetOverview(store, userId, now, instant)
  {
    assert (store + [t])[..|store + [t]| - 1] == store;
    assert Owned(store + [t], userId) == Owned(store, userId);
  }

  /**
   * `calculateProductivityScore`: 0 without tasks, otherwise the weighted score clamped
   * to [0, 100]. `raw` is the rounded weighted score, a floating-point formula not
   * modelled here.
   */
  function ProductivityScore(tasks: seq<Task>, raw: int): (r: int)
    ensures |tasks| == 0 ==> r == 0
    ensures 0 <= r <= 100
    ensures |tasks| > 0 && 0 <= raw <= 100 ==> r == raw
    ensures |tasks| > 0 && raw < 0 ==> r == 0
    ensures |tasks| > 0 && raw > 100 ==> r == 100
  {
    if |tasks| == 0 then 0
    else if raw < 0 then 0
    else if raw > 100 then 100
    else raw
  }
}
