# Task manager: a Dafny model of the mutation pipeline and the client state

This project models the core of a personal task manager with a NestJS backend and a
Next.js frontend, and proves properties of that model. The project has two halves.

The backend half is the pipeline behind every change to a task:

1. the task service writes the row;
2. it deletes the owner's cached task lists from Redis;
3. it broadcasts `tasks:updated` and `analytics:updated` over socket.io;
4. for a high-priority task, it publishes a message to RabbitMQ, which a worker consumes.

Around this pipeline sit:

- the cache-fronted, filtered and paginated list read;
- the task statistics and the analytics overview;
- the request validators.

The frontend half is the state the browser keeps:

- the filter store and the filter bar;
- the list's completion toggle and pagination;
- the kanban board's drag and drop;
- the task form;
- the CSV export;
- the sign-in store.

Everything is a pure function over immutable data. The whole backend is one `System` value:

- the task table;
- the cache map;
- the socket hub, holding the broadcast trace and each client's inbox;
- the broker queue;
- the ordered trace of side effects.

A request reads everything else from its environment (`Env`):

- the id and the timestamp the database generates;
- the gateway's clock readings;
- whether each Redis or RabbitMQ call fails;
- the configuration.

The central result is in `list_coherence.dfy`. It assumes that no invalidation fails, that user ids
contain no `:` (they are UUIDs), and that the query rendering in the cache key is injective. Under those
assumptions, every list response in the cache equals what the store would compute now. As a result,
every list read returns current data, whether it comes from the cache or not (`ListCoherence.ListReadsAreFresh`).
The same module also shows the cost of the fail-open cache client: when the invalidation after a create
fails, the next list read serves the old response (`ListCoherence.StaleListAfterFailedInvalidation`).

| file | module | models |
|---|---|---|
| wrappers.dfy | Wrappers | optional values, JavaScript truthiness of strings |
| arith.dfy | Arith | one step of integer arithmetic shared by the rounding and paging bounds |
| types.dfy | Types | task, enums, request bodies, list response |
| validation.dfy | Validation | the create / update / list-query validators |
| task_queries.dfy | TaskQueries | row criteria, filtering and counting |
| cache.dfy | Cache | the Redis cache service |
| gateway.dfy | Gateway | the socket.io gateway |
| notifications.dfy | Notifications, NotificationsWorker | the queue producer and consumer |
| tasks_service.dfy | TasksService | the task service |
| list_coherence.dfy | ListCoherence | list cache coherence over runs of requests |
| analytics.dfy | Analytics | the analytics overview and score clamp |
| tasks_store.dfy | TasksStore | the client filter store |
| task_filters.dfy | TaskFilters | the filter bar |
| task_list.dfy | TaskList | completion toggle and pagination |
| kanban.dfy | Kanban | board columns and drag and drop |
| task_modal.dfy | TaskModal | the task form |
| export_csv.dfy | ExportCsv | the CSV export |
| auth_store.dfy | AuthStore | the client session store |

## Model

| member | source | states |
|---|---|---|
| Types.ParseStatus | backend/src/tasks/dto/create-task.dto.ts:18-21 | a status string is accepted exactly when it is one of pending / in_progress / completed, and the enum value read back has that name |
| Types.ParsePriority | backend/src/tasks/dto/create-task.dto.ts:23-26 | a priority string is accepted exactly when it is one of low / medium / high, and the value read back has that name |
| Validation.TitleViolations | backend/src/tasks/dto/create-task.dto.ts:6-10 | a title has no violation exactly when its length is 3..200; a shorter one reports too-short, a longer one too-long |
| Validation.CreateTaskViolations | backend/src/tasks/dto/create-task.dto.ts:6-31 | the create body has no violations exactly when it is valid, and each broken rule (title length, description ≤ 1000, status, priority, date) is reported |
| Validation.UpdateTaskViolations | backend/src/tasks/dto/create-task.dto.ts:6-31 | the update body, every field optional, has no violations exactly when each field present satisfies the create rule; each of the five checks is reported exactly when its field is present and breaks that rule, so there are at most five |
| Validation.QueryViolations | backend/src/tasks/dto/query-task.dto.ts:6-40 | the list query has no violations exactly when page and limit are integers ≥ 1, status and priority are enum members, sortBy is one of five fields, and order is ASC or DESC, each when present |
| Cache.ConfiguredTtl | backend/src/cache/cache.service.ts:12 | the REDIS_TTL setting is an environment string: 300 is used exactly when it is unset or empty, and any other string, "0" included, is passed on as it is |
| Cache.EffectiveTtl | backend/src/cache/cache.service.ts:48 | a write uses its own TTL when that is given and non-zero, otherwise the configured TTL; a zero TTL can only come from the configuration |
| Cache.Get | backend/src/cache/cache.service.ts:36-44 | a read returns the stored value when the key is present, and nothing on a missing key or a client error; it never fails |
| Cache.Set | backend/src/cache/cache.service.ts:46-56 | a write stores the value under the key with the seconds the server reads from `ttl \|\| configured`, which are positive, and keeps every other key. A client error, or a TTL the server does not read as a positive integer, is caught and leaves the map unchanged |
| Cache.Del | backend/src/cache/cache.service.ts:58-64 | a delete removes just that key, or changes nothing on an error |
| Cache.DelPattern | backend/src/cache/cache.service.ts:66-75 | deleting `prefix*` removes exactly the keys starting with the prefix and keeps the others with their values; on an error the map is unchanged |
| Cache.InvalidateTasksCache | backend/src/cache/cache.service.ts:77-79 | no key of `tasks:<user>:` remains, every other key keeps its value; on an error nothing changes |
| Cache.InvalidateAnalyticsCache | backend/src/cache/cache.service.ts:81-83 | no key of `analytics:<user>:` remains, every other key keeps its value, and no key is added; on an error nothing changes |
| Cache.GetAfterSet | backend/src/cache/cache.service.ts:36-56 | a successful read after a successful write of the same key returns the written value when the server accepted the TTL, and what was there before when it refused it |
| Cache.ZeroTtlSettingCachesNothing | backend/src/cache/cache.service.ts:12-56 | with `REDIS_TTL=0` and no per-call TTL, every write leaves the cache unchanged, so nothing is ever cached |
| Cache.GetUnaffected | backend/src/cache/cache.service.ts:46-75 | a write to another key, or a pattern delete not covering the key, does not change what a read returns |
| Cache.InvalidateEmptyNamespace | backend/src/cache/cache.service.ts:66-79 | invalidating a namespace that holds no key changes nothing |
| Cache.InvalidateIdempotent | backend/src/cache/cache.service.ts:66-79 | invalidating twice equals invalidating once |
| Cache.NamespacesDisjoint | backend/src/cache/cache.service.ts:77-79 | for colon-free user ids, one user's task namespace never covers a key in another user's |
| Cache.InvalidateKeepsOthers | backend/src/cache/cache.service.ts:77-83 | a user's invalidation keeps other users' task keys and every analytics key |
| Gateway.NotifyTasksUpdate | backend/src/websocket/websocket.gateway.ts:31-34 | exactly one `tasks:updated` event carrying only a timestamp is appended; the count of the other event is unchanged |
| Gateway.NotifyAnalyticsUpdate | backend/src/websocket/websocket.gateway.ts:37-40 | exactly one `analytics:updated` event carrying only a timestamp is appended; the count of the other event is unchanged |
| Gateway.NotifyAllUpdates | backend/src/websocket/websocket.gateway.ts:43-46 | the trace and every connected client's inbox grow by `tasks:updated` then `analytics:updated`, each once |
| Gateway.HandleConnection | backend/src/websocket/websocket.gateway.ts:22-24 | a connection changes no trace and starts the client with an empty inbox: nothing earlier is replayed |
| Gateway.HandleDisconnect | backend/src/websocket/websocket.gateway.ts:26-28 | a disconnection changes no trace and leaves the other clients' inboxes as they were |
| Gateway.EmitKeepsSuffixes | backend/src/websocket/websocket.gateway.ts:31-46 | after a broadcast, each client still holds exactly the trace since it connected |
| Gateway.ConnectionsKeepSuffixes | backend/src/websocket/websocket.gateway.ts:22-28 | connects and disconnects keep each inbox a suffix of the trace |
| Notifications.BuildNotification | backend/src/notifications/notifications.service.ts:29-35 | the message has the five fields taskId, title, priority, userId, createdAt copied from the task |
| Notifications.SendHighPriorityNotification | backend/src/notifications/notifications.service.ts:27-48 | one call appends at most one message, persistent and on the configured queue, and keeps earlier messages; it appends exactly when the send does not fail, and never raises |
| NotificationsWorker.Deliver | backend/src/notifications/notifications.worker.ts:28-30 | with prefetch 1 the broker hands over the next ready message only when none is unsettled |
| NotificationsWorker.DeliverKeepsValid | backend/src/notifications/notifications.worker.ts:28-30 | delivery keeps tags distinct and at most one message unsettled |
| NotificationsWorker.OnMessage | backend/src/notifications/notifications.worker.ts:30-40 | a null delivery changes nothing; otherwise exactly one settlement is added for that message: an ack when it parses and processing succeeds, else a nack of that message alone without requeue |
| NotificationsWorker.OnMessageKeepsValid | backend/src/notifications/notifications.worker.ts:30-40 | settling keeps the channel invariant, and the settled message had not been settled before and is not ready again, so each message is settled once |
| TaskQueries.FilterMembers | backend/src/tasks/tasks.service.ts:57-65 | a task is selected exactly when it is in the table and satisfies the criterion |
| TaskQueries.FilterFilter | backend/src/tasks/tasks.service.ts:57-65 | filtering by one criterion and then another equals filtering by both |
| TaskQueries.CountSplit | backend/src/analytics/analytics.service.ts:19-22 | the tasks that satisfy a criterion and those that do not add up to all tasks |
| TaskQueries.StatusCountsSum | backend/src/tasks/tasks.service.ts:136-141 | the pending, in-progress and completed counts add up to the number of tasks |
| TaskQueries.PriorityCountsSum | backend/src/tasks/tasks.service.ts:142-146 | the low, medium and high counts add up to the number of tasks |
| TasksService.Lookup | backend/src/tasks/tasks.service.ts:91-93 | the row found has the id and the owner asked for; no row is found only when none has both |
| TasksService.NewTask | backend/src/database/migrations/1705710000001-CreateTasksTable.ts:20-21 | the saved task carries the caller as owner and the body's fields, with status pending and priority medium when the body omits them |
| TasksService.Create | backend/src/tasks/tasks.service.ts:23-43 | a create persists a task owned by the caller and returns it. The trace gets save, invalidation of `tasks:<user>:`, `tasks:updated`, `analytics:updated`, then a publish only for high priority. The returned task is the body with the defaults pending and medium filled in, the generated id and timestamps, and the caller as owner. The queue grows by one exactly for a high-priority task whose send succeeds, and the new message is that task's notification, persistent, on the configured queue. The owner's list keys are gone after a successful invalidation |
| TasksService.FindOne | backend/src/tasks/tasks.service.ts:90-100 | the caller's task with that id is returned with no effect, or NotFound exactly when there is none |
| TasksService.ApplyUpdate | backend/src/tasks/tasks.service.ts:105 | every field present in the body overwrites the task's field, and every absent field, the id and the owner stay as they were |
| TasksService.Update | backend/src/tasks/tasks.service.ts:102-116 | NotFound, with no effect, exactly when the caller owns no such task. Otherwise the merged task replaces its row, the trace gets save, invalidation and both signals, and the queue is untouched |
| TasksService.Remove | backend/src/tasks/tasks.service.ts:118-130 | NotFound, with no effect, exactly when the caller owns no such task. Otherwise only rows with that id disappear, the trace gets delete, invalidation and both signals, and the result is 'Tarefa deletada com sucesso' |
| TasksService.Paging | backend/src/tasks/tasks.service.ts:46-71 | a valid query yields skip = (page − 1)·limit ≥ 0 and take = limit ≥ 1, with page 1 and limit 10 by default |
| TasksService.CeilDiv | backend/src/tasks/tasks.service.ts:80 | the page count is the least number of pages of `limit` rows that hold all rows |
| TasksService.Window | backend/src/tasks/tasks.service.ts:70-71 | the page holds at most `take` rows, which are the rows from position `skip` on, in order |
| TasksService.ComputePage | backend/src/tasks/tasks.service.ts:57-82 | a response holds at most `limit` rows: the matching rows (the caller's, narrowed by status and priority when given) from position `skip` on, in order. Its total counts all matching rows, and its page count covers them with no empty last page |
| TasksService.ListKey | backend/src/tasks/tasks.service.ts:49 | every list key lies in the owner's namespace `tasks:<user>:` |
| TasksService.FindAll | backend/src/tasks/tasks.service.ts:45-88 | a hit returns the cached value and touches only the trace, without reading the store. A miss returns the computed response, reads the store, and writes the response under the owner's key with the configured TTL, a write the cache server refuses leaving the cache as it was |
| TasksService.GetTaskStats | backend/src/tasks/tasks.service.ts:132-148 | each status count and each priority count is the number of the caller's tasks with that status or priority, and each group adds up to the number of the caller's tasks |
| TasksService.PublishesOnlyHigh | backend/src/tasks/tasks.service.ts:37-40 | a create publishes exactly when the saved priority is high; one without a priority, or with another priority, leaves the queue as it was |
| TasksService.MutationForcesMiss | backend/src/tasks/tasks.service.ts:23-130 | after any successful create, update or remove whose invalidation succeeds, every list read of that owner misses the cache |
| TasksService.PageWithinBounds | backend/src/tasks/tasks.service.ts:70-80 | a response that has rows is on a page between 1 and its page count |
| TasksService.MutationsKeepUniqueIds | backend/src/tasks/tasks.service.ts:23-130 | creates, updates and removals keep task ids unique |
| ListCoherence.ListKeyInjective | backend/src/tasks/tasks.service.ts:49 | for colon-free user ids and an injective query rendering, a list key names one owner and one query |
| ListCoherence.ReplaceKeepsOthers | backend/src/tasks/tasks.service.ts:105-107 | rewriting a row of one owner leaves every other owner's selections unchanged |
| ListCoherence.DeleteKeepsOthers | backend/src/tasks/tasks.service.ts:121 | deleting a row of one owner leaves every other owner's selections unchanged |
| ListCoherence.FindAllKeepsCoherent | backend/src/tasks/tasks.service.ts:45-88 | from a coherent cache a list read returns exactly what the store gives, and leaves the cache coherent |
| ListCoherence.CreateKeepsCoherent | backend/src/tasks/tasks.service.ts:23-43 | a create whose invalidation succeeds keeps every cached list equal to what the store gives |
| ListCoherence.UpdateKeepsCoherent | backend/src/tasks/tasks.service.ts:102-116 | an update whose invalidation succeeds keeps every cached list equal to what the store gives |
| ListCoherence.RemoveKeepsCoherent | backend/src/tasks/tasks.service.ts:118-130 | a removal whose invalidation succeeds keeps every cached list equal to what the store gives |
| ListCoherence.RunKeepsInvariant | backend/src/tasks/tasks.service.ts:23-130 | over any run of creates, updates, removals and list reads with no failed invalidation, the cache stays coherent and ids stay unique |
| ListCoherence.ListReadsAreFresh | backend/src/tasks/tasks.service.ts:45-88 | starting from an empty cache, after any such run a list read returns the current contents of the store |
| ListCoherence.StaleListAfterFailedInvalidation | backend/src/cache/cache.service.ts:66-75 | when the invalidation after a create fails, a previously cached unfiltered list is served again, one task short of the store |
| Analytics.PercentAtMostHundred | backend/src/analytics/analytics.service.ts:29 | a rounded share of at most the whole is at most 100 percent |
| Analytics.CompletionRate | backend/src/analytics/analytics.service.ts:29 | the completion rate is 0 without tasks or without completed tasks, and always within 0..100 |
| Analytics.GetOverview | backend/src/analytics/analytics.service.ts:15-52 | over the caller's tasks: each status and priority count is the number of those tasks with that status or priority, overdue counts the tasks not completed whose due date is before now, and the rate is the rounded completed share. Also total = completed + pending + inProgress, byStatus mirrors them, the priority counts sum to total with high = highPriority, the rate is within 0..100, and overdue ≤ total − completed |
| Analytics.OverviewIgnoresOtherUsers | backend/src/analytics/analytics.service.ts:17 | another user's task changes nothing in the overview |
| Analytics.ProductivityScore | backend/src/analytics/analytics.service.ts:173-199 | the score is 0 without tasks and otherwise the weighted score clamped to 0..100 |
| TasksStore.SetFilters | frontend/store/tasksStore.ts:19-22 | a merge keeps every key the patch does not carry, and an empty patch changes nothing |
| TasksStore.SetFiltersOverwrites | frontend/store/tasksStore.ts:19-22 | every key the patch carries takes the patch's value |
| TasksStore.SetFiltersCompose | frontend/store/tasksStore.ts:19-22 | two merges in a row equal one merge of the combined patch |
| TasksStore.SetFiltersIdempotent | frontend/store/tasksStore.ts:19-22 | merging the same patch twice equals merging it once |
| TasksStore.ResetFilters | frontend/store/tasksStore.ts:23 | reset lands on the defaults from any state: page 1, limit 10, no status or priority filter, a query the server accepts |
| TasksStore.ResetIdempotent | frontend/store/tasksStore.ts:23 | reset is idempotent and undoes any merge |
| TasksStore.DefaultsValid | frontend/store/tasksStore.ts:10-15 | the default filters are a list query the server accepts |
| TaskFilters.OnStatusChange | frontend/components/tasks/TaskFilters.tsx:21-25 | choosing a status sets only the status and page 1 |
| TaskFilters.OnPriorityChange | frontend/components/tasks/TaskFilters.tsx:40-45 | choosing a priority sets only the priority and page 1 |
| TaskFilters.OnSortByChange | frontend/components/tasks/TaskFilters.tsx:59 | choosing a sort field sets only sortBy and page 1 |
| TaskFilters.OnOrderChange | frontend/components/tasks/TaskFilters.tsx:74-76 | choosing an order sets only order and page 1 |
| TaskFilters.Clear | frontend/components/tasks/TaskFilters.tsx:87 | the clear button restores the store defaults |
| TaskFilters.ShownStatus | frontend/components/tasks/TaskFilters.tsx:20 | the status select shows the stored status, or the "all" option (value `''`) when it is unset or empty |
| TaskFilters.ShownPriority | frontend/components/tasks/TaskFilters.tsx:39 | the priority select shows the stored priority, or the "all" option (value `''`) when it is unset or empty |
| TaskFilters.ShownSortBy | frontend/components/tasks/TaskFilters.tsx:58 | the sort select falls back to createdAt |
| TaskFilters.ShownOrder | frontend/components/tasks/TaskFilters.tsx:73 | the order select falls back to DESC |
| TaskFilters.AllOptionIsRejected | frontend/components/tasks/TaskFilters.tsx:21-29 | as written, choosing "all" for status or priority yields a query the server rejects |
| TaskFilters.NonEmptyOptionsKeepQueryValid | frontend/components/tasks/TaskFilters.tsx:21-80 | every other option of the four selects keeps a valid query valid |
| TaskFilters.SelectStatus | frontend/components/tasks/TaskFilters.tsx:21-25 | corrected handler: choosing a status stores it, or clears the filter for the "all" option, and goes to page 1; nothing else changes |
| TaskFilters.SelectPriority | frontend/components/tasks/TaskFilters.tsx:40-45 | corrected handler: choosing a priority stores it, or clears the filter for the "all" option, and goes to page 1; nothing else changes |
| TaskFilters.SelectKeepsQueryValid | frontend/components/tasks/TaskFilters.tsx:21-51 | with "all" clearing the key, every option of the status and priority selects keeps a valid query valid |
| TaskFilters.SelectAgreesWithDisplay | frontend/components/tasks/TaskFilters.tsx:20-51 | with the correction, "all" removes the filter and is shown as "all", and any other option behaves as written |
| TaskFilters.HandlersResetPage | frontend/components/tasks/TaskFilters.tsx:21-87 | every handler lands on page 1, and clearing after a change equals clearing |
| TaskList.Toggle | frontend/components/tasks/TaskList.tsx:49-52 | completed goes to pending, and pending or in progress goes to completed |
| TaskList.ToggleComplete | frontend/components/tasks/TaskList.tsx:48-54 | the update goes to the task's id and carries only the toggled status |
| TaskList.ToggleTwice | frontend/components/tasks/TaskList.tsx:49-52 | toggling twice restores pending and completed but sends in progress to pending |
| TaskList.ToggleChangesOnlyStatus | frontend/components/tasks/TaskList.tsx:53 | the toggle body passes validation, and applied by the server it changes the status alone |
| TaskList.Previous | frontend/components/tasks/TaskList.tsx:162 | the previous button moves to page `meta.page - 1` and keeps every other filter |
| TaskList.Next | frontend/components/tasks/TaskList.tsx:172 | the next button moves to page `meta.page + 1` and keeps every other filter |
| TaskList.Pagination | frontend/components/tasks/TaskList.tsx:159-174 | the bar shows exactly when there are rows (an empty list returns early, line 56) and more than one page; previous is disabled exactly on page 1, next exactly on the last page |
| TaskList.PaginationStaysInBounds | frontend/components/tasks/TaskList.tsx:159-174 | for a server response, an enabled button moves to a page within 1..totalPages and keeps the query valid |
| Kanban.TasksByStatus | frontend/components/tasks/KanbanView.tsx:30-32 | a column holds exactly the tasks with its status, and no more rows than the list |
| Kanban.DragStart | frontend/components/tasks/KanbanView.tsx:34-36 | starting a drag records the task as the dragged one |
| Kanban.ColumnKeepsOrder | frontend/components/tasks/KanbanView.tsx:30-32 | a column keeps list order: the column of a concatenation is the concatenation of the columns, and one task forms its own column exactly when it has that status |
| Kanban.ColumnsPartition | frontend/components/tasks/KanbanView.tsx:24-32 | the three column sizes add up to the number of tasks |
| Kanban.Drop | frontend/components/tasks/KanbanView.tsx:42-47 | a drop sends an update exactly when a task is dragged onto a column of another status, carrying that id and only the new status; afterwards nothing is dragged |
| Kanban.DragAndDrop | frontend/components/tasks/KanbanView.tsx:34-47 | dragging onto another column moves the task to that status and changes nothing else on the server; dropping on its own column sends nothing |
| TaskModal.Prefill | frontend/components/tasks/TaskModal.tsx:26-38 | the edit form copies title, status and priority, shows a missing description as empty, and cuts the due date to its day |
| TaskModal.HandleChange | frontend/components/tasks/TaskModal.tsx:45-53 | the named field takes the value, or becomes absent when the value is empty, and every other field is unchanged |
| TaskModal.SubmitAsUpdate | frontend/components/tasks/TaskModal.tsx:40-43 | the submitted body is the form, field for field |
| TaskModal.SubmitAsCreate | frontend/components/tasks/TaskModal.tsx:40-76 | a create body exists exactly when the title input, `required` with `minLength` 3, holds at least three characters; it then carries the form's fields, and its title meets the server's minimum length |
| TaskModal.UntouchedNewFormIsBlocked | frontend/components/tasks/TaskModal.tsx:18-76 | the new-task form as it opens, with an empty title, is not submitted |
| TaskModal.ChangesCompose | frontend/components/tasks/TaskModal.tsx:45-53 | the later change to a field wins, and changes to different fields commute |
| TaskModal.NewFormValidates | frontend/components/tasks/TaskModal.tsx:18-24 | a new form with a title of acceptable length submits title, '', pending, medium and no due date, which the server accepts |
| TaskModal.UntouchedEditKeepsTask | frontend/components/tasks/TaskModal.tsx:26-43 | saving an edit without changes keeps title, status, priority, owner and description, except that a missing description becomes '' |
| TaskModal.ClearedFieldIsKept | frontend/components/tasks/TaskModal.tsx:48-52 | emptying the description or the due date in an edit sends no value, so the server keeps the old one |
| ExportCsv.Cells | frontend/components/tasks/ExportButton.tsx:26-33 | a row has six cells in header order; a missing description or due date is empty, and status and priority are the fixed labels |
| ExportCsv.Csv | frontend/components/tasks/ExportButton.tsx:35-40 | the content starts with U+FEFF |
| ExportCsv.SplitJoin | frontend/components/tasks/ExportButton.tsx:36-38 | splitting a joined line at the separator gives back its parts, when no part contains the separator |
| ExportCsv.LineCells | frontend/components/tasks/ExportButton.tsx:26-37 | a data line splits at commas into exactly six cells, each in double quotes, when no cell holds a comma |
| ExportCsv.CsvLines | frontend/components/tasks/ExportButton.tsx:25-40 | after the mark come the header line, then one line per task in order, when no cell holds a line break |
| ExportCsv.MissingFieldsAreEmptyCells | frontend/components/tasks/ExportButton.tsx:28-31 | a missing description or due date is written `""` |
| AuthStore.Start | frontend/store/authStore.ts:18-21 | the store starts with no user or token, signed out and not hydrated |
| AuthStore.SetAuth | frontend/store/authStore.ts:22-26 | sign-in writes the token and the encoded user to storage, keeps the other keys, and records the user and token as signed in |
| AuthStore.Logout | frontend/store/authStore.ts:27-31 | sign-out removes both storage keys, keeps the rest, and clears user and token |
| AuthStore.SetHydrated | frontend/store/authStore.ts:32 | hydration sets isHydrated and changes nothing else, storage included |
| AuthStore.ActionKeepsConsistent | frontend/store/authStore.ts:22-32 | every action keeps the store signed in exactly when it holds a user and a token mirrored in storage; sign-in and sign-out leave isHydrated alone |
| AuthStore.ReplayKeepsConsistent | frontend/store/authStore.ts:22-32 | any run of actions keeps the store consistent |
| AuthStore.LogoutUndoesSetAuth | frontend/store/authStore.ts:22-31 | sign-out after sign-in equals sign-out, and sign-out is idempotent |

## Left out

- Connection setup and reconnection for Redis, RabbitMQ and socket.io are left out: they are I/O. Each client is a map or a sequence, and every call takes an explicit "failed" input.
- TTL expiry is left out. The TTL is stored with each entry but no clock removes entries. An expiry only deletes an entry, which would not break the coherence invariant.
- Concurrent requests are left out. The model is one request at a time, so it does not cover the lost update between `findOne` and `save` in `update`, or interleaved mutations.
- The ORDER BY of the list query (`sortBy`, `order`) is left out. It is delegated to the database, so rows keep table order; the sort parameters are only validated and stored.
- TasksService.ApplyUpdate: keeps `updatedAt` unchanged. The entity file that would declare an update-date column is not part of this model.
- TasksService.ApplyUpdate: a field is either absent or a string, so an explicit `null` in the body is not representable. `Object.assign` at backend/src/tasks/tasks.service.ts:105 copies such a null and `@IsOptional` lets it through, so `{"dueDate": null}` clears the due date in the source, while the model keeps the old value. backend/src/tasks/dto/update-task.dto.ts is not part of this model; the update body is taken to be `PartialType(CreateTaskDto)`, which Validation.UpdateTaskViolations assumes as well.
- TasksService.ApplyUpdate: the request bodies carry only the DTO's declared fields, which assumes the global `ValidationPipe` strips unknown keys (`whitelist: true`). backend/src/main.ts is not part of this model, and the one visible setup, `new ValidationPipe()` at backend/test/auth.e2e-spec.ts:15, does not strip them. Without stripping, `Object.assign` at backend/src/tasks/tasks.service.ts:105 copies a body `id` or `userId`, so an update could move a task to another user, whose cached lists would then go stale. The spread at backend/src/tasks/tasks.service.ts:24-27 would likewise keep a body `id` in place of the generated one. TasksService.Create's generated id, the id and owner kept by ApplyUpdate, and the coherence results (ListCoherence.UpdateKeepsCoherent, ListCoherence.RunKeepsInvariant, ListCoherence.ListReadsAreFresh) rest on this assumption.
- Validation.QueryViolations: `page` and `limit` are modelled as numbers, which assumes the application's global `ValidationPipe` converts query strings (`transform: true`). backend/src/main.ts is not part of this model. Without the conversion, as in backend/test/auth.e2e-spec.ts:15, they stay strings, and the frontend's `meta.page + 1` would concatenate. TasksService.Paging, TasksService.ComputePage and TaskList.Pagination rest on the same assumption.
- Cache.Set: how the cache server reads a TTL string as an integer is the parameter `readInt`; the node-redis client and the server are not part of this model.
- TasksService.ListKey: the JSON rendering of the query in the key is the parameter `serialize`. The coherence results assume it is injective. Different key orders in the query string give different renderings of one query, which only adds cache entries. The argument would carry over, but the model does not show it.
- The save failing for a reason other than a duplicate id is left out; the database is not modelled.
- Analytics.CompletionRate: uses integer half-up rounding and proves bounds only. JavaScript's `Math.round(c / t * 100)` over floating point can differ at ties.
- Analytics.GetOverview: its `completionRate` is CompletionRate, so it inherits the rounding difference. For 57 completed of 200, the double `57 / 200 * 100` is just below 28.5 and `Math.round` gives 28, where the model gives 29.
- Analytics.ProductivityScore: takes the weighted score as the input `raw`. The weights 0.5 / 0.3 / 0.2 are a floating-point formula, so only the clamp is modelled.
- `avgCompletionTime`, `getProductivity` and `getTrends` are left out: they use floating point, the wall clock and the time zone.
- Date parsing and formatting are opaque function parameters: `IsDateString`, `new Date`, date-fns `format` and `toISOString().split('T')[0]`.
- String length is the length of a `seq<char>`. class-validator counting of surrogate pairs is not modelled.
- ExportCsv.CsvLines: holds only when no cell contains a line break. ExportCsv.LineCells holds only when no cell contains a comma. The export does not double embedded quotes, so arbitrary cells do not read back.
- The PDF export, the Blob download and the DOM are left out: they are browser I/O. Of the browser's form validation, only the title input's `required` and `minLength` are modelled, as the gate of TaskModal.SubmitAsCreate.
- TaskModal.SubmitAsUpdate: returns the edit body for any form. The browser's block of a submission whose title is empty or, after an edit, shorter than three characters is not applied to it.
- TasksService.FindOne: answers NotFound for every id the caller does not own, a malformed one included. In the source the id parameter (backend/src/tasks/tasks.controller.ts:41) has no UUID pipe while the column is `uuid` (backend/src/database/migrations/1705710000001-CreateTasksTable.ts:17), so a malformed id makes the database query fail with a server error rather than a 404. TasksService.Update and TasksService.Remove go through the same lookup (backend/src/tasks/tasks.service.ts:103,119) and share the difference. Either way the request has no effect.
- The persistence middleware's stored copy of the session (`auth-storage`) and its rehydration are left out. Rehydration appears only as the `SetHydrated` action.
- HTTP routing, dependency injection, the axios client, the react-query listener and migrations are left out. From the migrations, only the column defaults pending / medium are used.
- Authentication and the login validator are left out.

## Findings

| source | as written | input that shows it | evidently intended | confidence | as-written member | corrected member |
|---|---|---|---|---|---|---|
| frontend/components/tasks/TaskFilters.tsx:21-29 | The "Todos" / "Todas" option has value `''`, and the handler stores it as the status (likewise the priority at lines 40-48). The filters go out as the list query. backend/src/tasks/dto/query-task.dto.ts:21-29 accepts an absent status, but `''` is not an enum member. | Choose "Todos" in the status select after picking a status. The query sent has `status: ''`, which the validator rejects. | "all" leaves the filter unset, so every task of the user is listed; findAll's own `if (status)` at backend/src/tasks/tasks.service.ts:59 already treats an empty status as "no filter" | medium, not executed; the application's global validation setup is not part of this model | TaskFilters.OnStatusChange, TaskFilters.AllOptionIsRejected | TaskFilters.SelectStatus, TaskFilters.SelectKeepsQueryValid |
