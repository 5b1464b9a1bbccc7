/**
 * Filters and counts over task rows: the `where` clauses and `filter(...).length`
 * expressions shared by the task service, its statistics and the analytics overview.
 * Rows are kept in store order; every filter preserves it.
 */
module TaskQueries {
  import opened Wrappers
  import opened Types

  /** A row predicate. `DueBefore` reads a due date through `instant`, the date parser. */
  datatype Criterion =
    | Any
    | OwnedBy(userId: string)
    | HasStatus(status: TaskStatus)
    | HasPriority(priority: TaskPriority)
    | DueBefore(now: int, instant: string -> Option<int>)
    | Not(c: Criterion)
    | And(left: Criterion, right: Criterion)

  predicate Holds(c: Criterion, t: Task) {
    match c
    case Any => true
    case OwnedBy(u) => t.userId == u
    case HasStatus(s) => t.status == s
    case HasPriority(p) => t.priority == p
    case DueBefore(now, instant) =>
      // `t.dueDate && new Date(t.dueDate) < now`: an empty or unparsable date is never before.
      && Truthy(t.dueDate)
      && instant(t.dueDate.value).Some?
      && instant(t.dueDate.value).value < now
    case Not(c) => !Holds(c, t)
    case And(a, b) => Holds(a, t) && Holds(b, t)
  }

  /** The rows satisfying `c`, in their original order. */
  function Filter(ts: seq<Task>, c: Criterion): (r: seq<Task>)
    ensures |r| <= |ts|
    decreases |ts|
  {
    if ts == [] then []
    else Filter(ts[..|ts| - 1], c) + (if Holds(c, ts[|ts| - 1]) then [ts[|ts| - 1]] else [])
  }

  /** A row is selected exactly when it is in the input and satisfies the criterion. */
  lemma {:induction false} FilterMembers(ts: seq<Task>, c: Criterion, t: Task)
    ensures t in Filter(ts, c) <==> t in ts && Holds(c, t)
    decreases |ts|
  {
    if ts != [] {
      var init := ts[..|ts| - 1];
      FilterMembers(init, c, t);
      assert ts == init + [ts[|ts| - 1]];
    }
  }

  /** `where: { userId }`. */
  function Owned(ts: seq<Task>, userId: string): seq<Task> {
    Filter(ts, OwnedBy(userId))
  }

  function Count(ts: seq<Task>, c: Criterion): nat {
    |Filter(ts, c)|
  }

  lemma {:induction false} FilterAppend(a: seq<Task>, b: seq<Task>, c: Criterion)
    ensures Filter(a + b, c) == Filter(a, c) + Filter(b, c)
    decreases |b|
  {
    if b == [] {
      assert a + b == a;
    } else {
      var init := b[..|b| - 1];
      assert (a + b)[..|a + b| - 1] == a + init;
      assert (a + b)[|a + b| - 1] == b[|b| - 1];
      FilterAppend(a, init, c);
    }
  }

  /** Criteria that agree on every row select the same rows. */
  lemma {:induction false} FilterEquivalent(ts: seq<Task>, c: Criterion, d: Criterion)
    requires forall t :: t in ts ==> (Holds(c, t) <==> Holds(d, t))
    ensures Filter(ts, c) == Filter(ts, d)
    decreases |ts|
  {
    if ts != [] {
      FilterEquivalent(ts[..|ts| - 1], c, d);
    }
  }

  lemma FilterSingleton(x: Task, c: Criterion)
    ensures Filter([x], c) == if Holds(c, x) then [x] else []
  {
    assert [x][..0] == [];
  }

  /** Filtering by `a` and then by `b` is filtering by both. */
  lemma {:induction false} FilterFilter(ts: seq<Task>, a: Criterion, b: Criterion)
    ensures Filter(Filter(ts, a), b) == Filter(ts, And(a, b))
    decreases |ts|
  {
    if ts != [] {
      var init := ts[..|ts| - 1];
      var last := ts[|ts| - 1];
      var both: seq<Task> := if Holds(a, last) && Holds(b, last) then [last] else [];
      assert Filter(ts, And(a, b)) == Filter(init, And(a, b)) + both;
      assert Filter(Filter(ts, a), b) == Filter(init, And(a, b)) + both by {
        FilterFilter(init, a, b);
        if Holds(a, last) {
          assert Filter(ts, a) == Filter(init, a) + [last];
          FilterAppend(Filter(init, a), [last], b);
          FilterSingleton(last, b);
        } else {
          assert Filter(ts, a) == Filter(init, a);
        }
      }
    }
  }

  /** Every row either satisfies a criterion or its negation. */
  lemma {:induction false} CountSplit(ts: seq<Task>, c: Criterion)
    ensures Count(ts, c) + Count(ts, Not(c)) == |ts|
    decreases |ts|
  {
    if ts != [] {
      CountSplit(ts[..|ts| - 1], c);
    }
  }

  /** A criterion implied by another counts at least as many rows. */
  lemma {:induction false} CountMonotone(ts: seq<Task>, c: Criterion, d: Criterion)
    requires forall t :: t in ts && Holds(c, t) ==> Holds(d, t)
    ensures Count(ts, c) <= Count(ts, d)
    decreases |ts|
  {
    if ts != [] {
      CountMonotone(ts[..|ts| - 1], c, d);
    }
  }

  /** Every row has exactly one of the three statuses. */
  lemma {:induction false} StatusCountsSum(ts: seq<Task>)
    ensures Count(ts, HasStatus(Pending)) + Count(ts, HasStatus(InProgress))
          + Count(ts, HasStatus(Completed)) == |ts|
    decreases |ts|
  {
    if ts != [] {
      StatusCountsSum(ts[..|ts| - 1]);
    }
  }

  /** Every row has exactly one of the three priorities. */
  lemma {:induction false} PriorityCountsSum(ts: seq<Task>)
    ensures Count(ts, HasPriority(Low)) + Count(ts, HasPriority(Medium))
          + Count(ts, HasPriority(High)) == |ts|
    decreases |ts|
  {
    if ts != [] {
      PriorityCountsSum(ts[..|ts| - 1]);
    }
  }
}
