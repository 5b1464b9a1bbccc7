/**
 * The filter bar (frontend/components/tasks/TaskFilters.tsx): four selects, each of
 * which writes one key of the filter store and goes back to the first page, the
 * values each select displays, and the button that restores the defaults.
 *
 * The status and priority selects open with an "all" option whose value is the
 * empty string. As written, choosing it stores `""` in the filters, which are then
 * sent as the list query; the query validator accepts an absent status or priority
 * but not an empty one, so the list request is rejected. `OnStatusChange` and
 * `OnPriorityChange` model the code as written; `SelectStatus` and `SelectPriority`
 * are the corrected handlers, which store "unset" for the "all" option.
 */
module TaskFilters {
  import opened Wrappers
  import opened Types
  import opened Validation
  import opened TasksStore

  /** The option values of each select, in display order. */
  const StatusOptions: seq<string> := ["", "pending", "in_progress", "completed"]
  const PriorityOptions: seq<string> := ["", "low", "medium", "high"]
  const SortByOptions: seq<string> := ["createdAt", "updatedAt", "dueDate", "priority", "status"]
  const OrderOptions: seq<string> := ["DESC", "ASC"]

  function PageOne(): Option<Option<int>> { Some(Some(1)) }

  // ---- The four handlers as written ----

  function OnStatusChange(f: Filters, value: string): (r: Filters)
    ensures r == f.(status := Some(value), page := Some(1))
  {
    SetFilters(f, EmptyPatch.(status := Some(Some(value)), page := PageOne()))
  }

  function OnPriorityChange(f: Filters, value: string): (r: Filters)
    ensures r == f.(priority := Some(value), page := Some(1))
  {
    SetFilters(f, EmptyPatch.(priority := Some(Some(value)), page := PageOne()))
  }

  function OnSortByChange(f: Filters, value: string): (r: Filters)
    ensures r == f.(sortBy := Some(value), page := Some(1))
  {
    SetFilters(f, EmptyPatch.(sortBy := Some(Some(value)), page := PageOne()))
  }

  function OnOrderChange(f: Filters, value: string): (r: Filters)
    ensures r == f.(order := Some(value), page := Some(1))
  {
    SetFilters(f, EmptyPatch.(order := Some(Some(value)), page := PageOne()))
  }

  /** "Limpar Filtros". */
  function Clear(f: Filters): (r: Filters)
    ensures r == DefaultFilters
  {
    ResetFilters(f)
  }

  // ---- What each select shows ----

  function ShownStatus(f: Filters): (r: string)
    ensures Truthy(f.status) ==> r == f.status.value
    ensures !Truthy(f.status) ==> r == ""
  {
    OrElse(f.status, "")
  }

  function ShownPriority(f: Filters): (r: string)
    ensures Truthy(f.priority) ==> r == f.priority.value
    ensures !Truthy(f.priority) ==> r == ""
  {
    OrElse(f.priority, "")
  }

  function ShownSortBy(f: Filters): (r: string)
    ensures Truthy(f.sortBy) ==> r == f.sortBy.value
    ensures !Truthy(f.sortBy) ==> r == "createdAt"
  {
    OrElse(f.sortBy, "createdAt")
  }

  function ShownOrder(f: Filters): (r: string)
    ensures Truthy(f.order) ==> r == f.order.value
    ensures !Truthy(f.order) ==> r == "DESC"
  {
    OrElse(f.order, "DESC")
  }

  // ---- The corrected status and priority handlers ----

  // The "all" option, the empty value, clears the key instead of storing `""`.

  function SelectStatus(f: Filters, value: string): (r: Filters)
    ensures r == f.(status := OrUndefined(value), page := Some(1))
  {
    SetFilters(f, EmptyPatch.(status := Some(OrUndefined(value)), page := PageOne()))
  }

  function SelectPriority(f: Filters, value: string): (r: Filters)
    ensures r == f.(priority := OrUndefined(value), page := Some(1))
  {
    SetFilters(f, EmptyPatch.(priority := Some(OrUndefined(value)), page := PageOne()))
  }

  // ---- Properties ----

  /**
   * As written: from any valid filters, choosing "all" in the status or priority
   * select yields a query the server rejects.
   */
  lemma AllOptionIsRejected(f: Filters)
    ensures !QueryValid(OnStatusChange(f, StatusOptions[0]))
    ensures !QueryValid(OnPriorityChange(f, PriorityOptions[0]))
  {
    assert ParseStatus("").None?;
    assert ParsePriority("").None?;
  }

  /** As written, every option other than "all" keeps a valid query valid. */
  lemma NonEmptyOptionsKeepQueryValid(f: Filters, i: int)
    requires QueryValid(f)
    ensures 1 <= i < |StatusOptions| ==> QueryValid(OnStatusChange(f, StatusOptions[i]))
    ensures 1 <= i < |PriorityOptions| ==> QueryValid(OnPriorityChange(f, PriorityOptions[i]))
    ensures 0 <= i < |SortByOptions| ==> QueryValid(OnSortByChange(f, SortByOptions[i]))
    ensures 0 <= i < |OrderOptions| ==> QueryValid(OnOrderChange(f, OrderOptions[i]))
  {
  }

  /** Corrected: every option of either select keeps a valid query valid, "all" included. */
  lemma SelectKeepsQueryValid(f: Filters, i: int)
    requires QueryValid(f)
    ensures 0 <= i < |StatusOptions| ==> QueryValid(SelectStatus(f, StatusOptions[i]))
    ensures 0 <= i < |PriorityOptions| ==> QueryValid(SelectPriority(f, PriorityOptions[i]))
  {
  }

  /**
   * Corrected: the "all" option removes the filter, the select shows "all" again, and
   * any other option behaves exactly as the handler as written.
   */
  lemma SelectAgreesWithDisplay(f: Filters, value: string)
    ensures value == "" ==> SelectStatus(f, value).status.None? && ShownStatus(SelectStatus(f, value)) == ""
    ensures value == "" ==> SelectPriority(f, value).priority.None? && ShownPriority(SelectPriority(f, value)) == ""
    ensures value != "" ==> SelectStatus(f, value) == OnStatusChange(f, value)
    ensures value != "" ==> SelectPriority(f, value) == OnPriorityChange(f, value)
    ensures ShownStatus(SelectStatus(f, value)) == value
    ensures ShownPriority(SelectPriority(f, value)) == value
  {
  }

  /** Every handler lands on the first page; clearing lands on the defaults from anywhere. */
  lemma HandlersResetPage(f: Filters, value: string)
    ensures OnStatusChange(f, value).page == Some(1) && OnPriorityChange(f, value).page == Some(1)
    ensures OnSortByChange(f, value).page == Some(1) && OnOrderChange(f, value).page == Some(1)
    ensures Clear(OnStatusChange(f, value)) == Clear(f)
  {
  }
}
