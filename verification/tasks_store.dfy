/**
 * The client-side filter store (frontend/store/tasksStore.ts): the list query the
 * task page sends, with a shallow-merge update and a reset to the defaults.
 */
module TasksStore {
  import opened Wrappers
  import opened Types
  import opened Validation

  type Filters = QueryTaskDto

  const DefaultFilters: Filters :=
    QueryTaskDto(Some(1), Some(10), None, None, Some("createdAt"), Some("DESC"))

  /**
   * A `Partial<QueryTaskDto>`: for each key, `None` when the key is absent from the
   * object and `Some(v)` when it is present, where `v` may itself be unset (`undefined`).
   */
  datatype Patch = Patch(
    page: Option<Option<int>>,
    limit: Option<Option<int>>,
    status: Option<Option<string>>,
    priority: Option<Option<string>>,
    sortBy: Option<Option<string>>,
    order: Option<Option<string>>)

  const EmptyPatch := Patch(None, None, None, None, None, None)

  /** One key of an object spread: a present key wins, an absent one keeps the old value. */
  function Over<T>(cur: Option<T>, p: Option<Option<T>>): (r: Option<T>)
    ensures p.None? ==> r == cur
    ensures p.Some? ==> r == p.value
  {
    if p.Some? then p.value else cur
  }

  /** Merging two patches: the later one wins on every key it carries. */
  function Then(p: Patch, q: Patch): (r: Patch)
    ensures q == EmptyPatch ==> r == p
    ensures p == EmptyPatch ==> r == q
  {
    Patch(
      if q.page.Some? then q.page else p.page,
      if q.limit.Some? then q.limit else p.limit,
      if q.status.Some? then q.status else p.status,
      if q.priority.Some? then q.priority else p.priority,
      if q.sortBy.Some? then q.sortBy else p.sortBy,
      if q.order.Some? then q.order else p.order)
  }

  /** `setFilters(p)`: `{ ...state.filters, ...p }`. */
  function SetFilters(f: Filters, p: Patch): (r: Filters)
    ensures p == EmptyPatch ==> r == f
    ensures p.page.None? ==> r.page == f.page
    ensures p.limit.None? ==> r.limit == f.limit
    ensures p.status.None? ==> r.status == f.status
    ensures p.priority.None? ==> r.priority == f.priority
    ensures p.sortBy.None? ==> r.sortBy == f.sortBy
    ensures p.order.None? ==> r.order == f.order
  {
    QueryTaskDto(
      Over(f.page, p.page), Over(f.limit, p.limit), Over(f.status, p.status),
      Over(f.priority, p.priority), Over(f.sortBy, p.sortBy), Over(f.order, p.order))
  }

  /** `resetFilters`: back to the defaults from any state. */
  function ResetFilters(f: Filters): (r: Filters)
    ensures r == DefaultFilters
    ensures r.page == Some(1) && r.limit == Some(10)
    ensures r.status.None? && r.priority.None?
    ensures QueryValid(r)
  {
    DefaultFilters
  }

  // ---- Properties ----

  /** Every key the patch carries is the patch's value afterwards. */
  lemma SetFiltersOverwrites(f: Filters, p: Patch)
    ensures p.page.Some? ==> SetFilters(f, p).page == p.page.value
    ensures p.status.Some? ==> SetFilters(f, p).status == p.status.value
    ensures p.priority.Some? ==> SetFilters(f, p).priority == p.priority.value
    ensures p.sortBy.Some? ==> SetFilters(f, p).sortBy == p.sortBy.value
    ensures p.order.Some? ==> SetFilters(f, p).order == p.order.value
    ensures p.limit.Some? ==> SetFilters(f, p).limit == p.limit.value
  {
  }

  /** Two updates in a row are one update with the merged patch. */
  lemma SetFiltersCompose(f: Filters, p: Patch, q: Patch)
    ensures SetFilters(SetFilters(f, p), q) == SetFilters(f, Then(p, q))
  {
  }

  /** Applying the same patch twice is applying it once. */
  lemma SetFiltersIdempotent(f: Filters, p: Patch)
    ensures SetFilters(SetFilters(f, p), p) == SetFilters(f, p)
  {
    SetFiltersCompose(f, p, p);
    assert Then(p, p) == p;
  }

  /** Reset is idempotent, and undoes any update. */
  lemma ResetIdempotent(f: Filters, p: Patch)
    ensures ResetFilters(ResetFilters(f)) == ResetFilters(f)
    ensures ResetFilters(SetFilters(f, p)) == ResetFilters(f)
  {
  }

  /** The defaults are a query the server accepts, on the first page of ten. */
  lemma DefaultsValid()
    ensures QueryValid(DefaultFilters)
    ensures DefaultFilters.page == Some(1) && DefaultFilters.limit == Some(10)
  {
    assert "createdAt" in SortFields;
    assert "DESC" in SortOrders;
  }
}
