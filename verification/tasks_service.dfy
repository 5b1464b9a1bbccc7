/**
 * The task service (backend/src/tasks/tasks.service.ts): the mutation pipeline and the
 * cached list read, as transitions of the whole system. The system is the task table,
 * the cache, the live-update hub, the broker queue and a trace of the side effects in
 * the order they happen. A request reads its environment from `Env`: the id and the
 * timestamp the database generates, the two gateway clock readings, whether each call
 * to the cache server or the broker fails, the `REDIS_TTL` setting, and how the cache
 * server reads a TTL string as an integer.
 */
module TasksService {
  import opened Wrappers
  import opened Types
  import opened Validation
  import opened TaskQueries
  import Cache
  import opened Gateway
  import opened Notifications
  import opened Arith

  datatype Effect =
    | Saved(taskId: string)
    | Removed(taskId: string)
    | Invalidated(namespace: string)
    | Emitted(event: EventName)
    | Published(taskId: string)
    | StoreRead(userId: string)
    | CacheRead(key: string)
    | CacheWritten(key: string)

  datatype System = System(
    store: seq<Task>,
    cache: Cache.Store<TasksResponse>,
    hub: Hub,
    queue: seq<QueuedMessage>,
    effects: seq<Effect>)

  datatype Env = Env(
    newId: string,
    now: string,
    clock1: int,
    clock2: int,
    getFault: bool,
    setFault: bool,
    delFault: bool,
    sendFault: bool,
    queueName: string,
    redisTtl: Option<string>,
    redisInt: string -> Option<int>)

  datatype Error = NotFound | DuplicateId {
    function Message(): string {
      match this
      case NotFound => "Tarefa não encontrada"
      case DuplicateId => "duplicate key value violates unique constraint"
    }
  }

  /** A request either fails before any side effect, or completes with a new system state. */
  datatype Reply<T> = Ok(state: System, value: T) | Err(error: Error)

  const DeletedMessage := "Tarefa deletada com sucesso"

  const DefaultPage := 1
  const DefaultLimit := 10

  // ---- Store access ----

  predicate UniqueIds(store: seq<Task>) {
    forall i, j :: 0 <= i < j < |store| ==> store[i].id != store[j].id
  }

  predicate IdTaken(store: seq<Task>, id: string) {
    exists i :: 0 <= i < |store| && store[i].id == id
  }

  /** `findOne({ where: { id, userId } })`: the first row with both, if any. */
  function Lookup(store: seq<Task>, id: string, userId: string): (r: Option<Task>)
    ensures r.Some? ==> r.value in store && r.value.id == id && r.value.userId == userId
    ensures r.None? ==> forall t :: t in store ==> !(t.id == id && t.userId == userId)
  {
    if store == [] then None
    else if store[0].id == id && store[0].userId == userId then Some(store[0])
    else Lookup(store[1..], id, userId)
  }

  /** Saving an existing entity rewrites the row with its primary key. */
  function ReplaceRow(store: seq<Task>, t: Task): (r: seq<Task>)
    ensures |r| == |store|
    ensures forall i :: 0 <= i < |store| ==> r[i] == if store[i].id == t.id then t else store[i]
  {
    if store == [] then [] else [if store[0].id == t.id then t else store[0]] + ReplaceRow(store[1..], t)
  }

  /** `remove(task)` deletes the row with its primary key. */
  function DeleteRow(store: seq<Task>, id: string): (r: seq<Task>)
    ensures forall t :: t in r <==> t in store && t.id != id
    ensures |r| <= |store|
  {
    if store == [] then []
    else (if store[0].id == id then [] else [store[0]]) + DeleteRow(store[1..], id)
  }

  // ---- Records built from requests ----

  /**
   * `tasksRepository.create({ ...dto, userId })` as saved: the database supplies the id,
   * both timestamps and the column defaults, pending and medium.
   */
  function NewTask(dto: CreateTaskDto, userId: string, id: string, now: string): (t: Task)
    requires StatusValid(dto.status) && PriorityValid(dto.priority)
    ensures t.id == id && t.userId == userId
    ensures t.title == dto.title && t.description == dto.description && t.dueDate == dto.dueDate
    ensures dto.status.None? ==> t.status == Pending
    ensures dto.status.Some? ==> StatusName(t.status) == dto.status.value
    ensures dto.priority.None? ==> t.priority == Medium
    ensures dto.priority.Some? ==> PriorityName(t.priority) == dto.priority.value
    ensures t.createdAt == now && t.updatedAt == now
  {
    Task(
      id, dto.title, dto.description,
      if dto.status.Some? then ParseStatus(dto.status.value).value else Pending,
      if dto.priority.Some? then ParsePriority(dto.priority.value).value else Medium,
      dto.dueDate, now, now, userId)
  }

  /** `Object.assign(task, dto)`: every field present in the body overwrites, nothing else moves. */
  function ApplyUpdate(t: Task, dto: UpdateTaskDto): (r: Task)
    requires StatusValid(dto.status) && PriorityValid(dto.priority)
    ensures r.id == t.id && r.userId == t.userId
    ensures r.createdAt == t.createdAt && r.updatedAt == t.updatedAt
    ensures r.title == dto.title.GetOr(t.title)
    ensures r.description == (if dto.description.Some? then dto.description else t.description)
    ensures r.dueDate == (if dto.dueDate.Some? then dto.dueDate else t.dueDate)
    ensures dto.status.None? ==> r.status == t.status
    ensures dto.status.Some? ==> StatusName(r.status) == dto.status.value
    ensures dto.priority.None? ==> r.priority == t.priority
    ensures dto.priority.Some? ==> PriorityName(r.priority) == dto.priority.value
  {
    t.(
      title := dto.title.GetOr(t.title),
      description := if dto.description.Some? then dto.description else t.description,
      status := if dto.status.Some? then ParseStatus(dto.status.value).value else t.status,
      priority := if dto.priority.Some? then ParsePriority(dto.priority.value).value else t.priority,
      dueDate := if dto.dueDate.Some? then dto.dueDate else t.dueDate)
  }

  /** The effects every successful mutation has, in order: write, invalidate, both signals. */
  function MutationEffects(write: Effect, userId: string): seq<Effect> {
    [write, Invalidated(Cache.TasksNamespace(userId)), Emitted(TasksUpdated), Emitted(AnalyticsUpdated)]
  }

  /** Everything after the store write: invalidation of the owner's lists and both signals. */
  function AfterWrite(sys: System, store: seq<Task>, write: Effect, userId: string, env: Env): (s: System)
    ensures s.store == store && s.queue == sys.queue
    ensures s.effects == sys.effects + MutationEffects(write, userId)
    ensures s.cache == Cache.InvalidateTasksCache(sys.cache, userId, env.delFault)
    ensures s.hub == NotifyAllUpdates(sys.hub, env.clock1, env.clock2)
  {
    System(
      store,
      Cache.InvalidateTasksCache(sys.cache, userId, env.delFault),
      NotifyAllUpdates(sys.hub, env.clock1, env.clock2),
      sys.queue,
      sys.effects + MutationEffects(write, userId))
  }

  // ---- Operations ----

  /**
   * `create`: saves the task for `userId`, invalidates that user's lists, emits both
   * signals, and publishes a notification exactly when the saved priority is high.
   * The save fails, before any other effect, if the generated id is already taken.
   */
  function Create(sys: System, dto: CreateTaskDto, userId: string, env: Env): (r: Reply<Task>)
    requires StatusValid(dto.status) && PriorityValid(dto.priority)
    ensures r.Err? <==> IdTaken(sys.store, env.newId)
    ensures r.Err? ==> r.error == DuplicateId
    ensures r.Ok? ==>
              && r.value.userId == userId
              && r.value.id == env.newId
              && r.value.title == dto.title
              && r.state.store == sys.store + [r.value]
              && r.state.hub.emitted == sys.hub.emitted + [Event(TasksUpdated, env.clock1), Event(AnalyticsUpdated, env.clock2)]
              && r.state.effects == sys.effects + MutationEffects(Saved(r.value.id), userId)
                   + (if r.value.priority == High then [Published(r.value.id)] else [])
    ensures r.Ok? ==>
              && |r.state.queue| == |sys.queue| + (if r.value.priority == High && !env.sendFault then 1 else 0)
              && r.state.queue[..|sys.queue|] == sys.queue
    ensures r.Ok? ==> r.value == NewTask(dto, userId, env.newId, env.now)
    ensures r.Ok? && r.value.priority == High && !env.sendFault ==>
              r.state.queue[|sys.queue|] == QueuedMessage(env.queueName, Json(BuildNotification(r.value)), true)
    ensures r.Ok? && !env.delFault ==>
              forall k :: k in r.state.cache ==> !Cache.StartsWith(k, Cache.TasksNamespace(userId))
  {
    if IdTaken(sys.store, env.newId) then Err(DuplicateId)
    else
      var saved := NewTask(dto, userId, env.newId, env.now);
      var s := AfterWrite(sys, sys.store + [saved], Saved(saved.id), userId, env);
      if saved.priority == High then
        Ok(s.(queue := SendHighPriorityNotification(s.queue, saved, env.queueName, env.sendFault),
              effects := s.effects + [Published(saved.id)]),
           saved)
      else Ok(s, saved)
  }

  /** `findOne`: the caller's task with this id, or NotFound; no side effect either way. */
  function FindOne(sys: System, id: string, userId: string): (r: Reply<Task>)
    ensures r.Err? <==> Lookup(sys.store, id, userId).None?
    ensures r.Err? ==> r.error == NotFound
    ensures r.Ok? ==> r.state == sys && r.value in sys.store && r.value.id == id && r.value.userId == userId
  {
    match Lookup(sys.store, id, userId)
    case None => Err(NotFound)
    case Some(t) => Ok(sys, t)
  }

  /**
   * `update`: NotFound unless the caller owns a task with this id; otherwise merges the
   * body into it, saves, invalidates, emits both signals. Never publishes.
   */
  function Update(sys: System, id: string, dto: UpdateTaskDto, userId: string, env: Env): (r: Reply<Task>)
    requires StatusValid(dto.status) && PriorityValid(dto.priority)
    ensures r.Err? <==> Lookup(sys.store, id, userId).None?
    ensures r.Err? ==> r.error == NotFound
    ensures r.Ok? ==>
              && var found := Lookup(sys.store, id, userId).value;
              && r.value == ApplyUpdate(found, dto)
              && r.value.id == id && r.value.userId == userId
              && r.state.store == ReplaceRow(sys.store, r.value)
              && r.state.queue == sys.queue
              && r.state.effects == sys.effects + MutationEffects(Saved(id), userId)
              && r.state.hub == NotifyAllUpdates(sys.hub, env.clock1, env.clock2)
              && r.state.cache == Cache.InvalidateTasksCache(sys.cache, userId, env.delFault)
  {
    match FindOne(sys, id, userId)
    case Err(e) => Err(e)
    case Ok(_, t) =>
      var updated := ApplyUpdate(t, dto);
      Ok(AfterWrite(sys, ReplaceRow(sys.store, updated), Saved(updated.id), userId, env), updated)
  }

  /**
   * `remove`: NotFound unless the caller owns a task with this id; otherwise deletes it,
   * invalidates, emits both signals and returns the confirmation message.
   */
  function Remove(sys: System, id: string, userId: string, env: Env): (r: Reply<string>)
    ensures r.Err? <==> Lookup(sys.store, id, userId).None?
    ensures r.Err? ==> r.error == NotFound
    ensures r.Ok? ==>
              && r.value == DeletedMessage
              && (forall t :: t in r.state.store <==> t in sys.store && t.id != id)
              && r.state.queue == sys.queue
              && r.state.effects == sys.effects + MutationEffects(Removed(id), userId)
              && r.state.hub == NotifyAllUpdates(sys.hub, env.clock1, env.clock2)
              && r.state.cache == Cache.InvalidateTasksCache(sys.cache, userId, env.delFault)
  {
    match FindOne(sys, id, userId)
    case Err(e) => Err(e)
    case Ok(_, t) =>
      Ok(AfterWrite(sys, DeleteRow(sys.store, t.id), Removed(t.id), userId, env), DeletedMessage)
  }

  // ---- The cached list read ----

  /** The `page` / `limit` destructuring defaults, as skip and take. */
  function Paging(q: QueryTaskDto): (r: (int, int))
    requires QueryValid(q)
    ensures r.0 >= 0 && r.1 >= 1
    ensures r.1 == q.limit.GetOr(DefaultLimit)
    ensures r.0 == (q.page.GetOr(DefaultPage) - 1) * r.1
    ensures q.page.None? ==> r.0 == 0
  {
    var page := q.page.GetOr(DefaultPage);
    var limit := q.limit.GetOr(DefaultLimit);
    ((page - 1) * limit, limit)
  }

  /** The `where` clause of the list query: owner, plus status and priority when set. */
  function ListCriterion(q: QueryTaskDto, userId: string): Criterion
    requires QueryValid(q)
  {
    var byStatus := if Truthy(q.status) then HasStatus(ParseStatus(q.status.value).value) else Any;
    var byPriority := if Truthy(q.priority) then HasPriority(ParsePriority(q.priority.value).value) else Any;
    And(OwnedBy(userId), And(byStatus, byPriority))
  }

  /** The rows the list query selects, before the page window. */
  function ListRows(store: seq<Task>, q: QueryTaskDto, userId: string): seq<Task>
    requires QueryValid(q)
  {
    Filter(store, ListCriterion(q, userId))
  }

  function CeilDiv(n: nat, d: nat): (r: nat)
    requires d > 0
    ensures r * d >= n
    ensures n > 0 ==> (r - 1) * d < n
    ensures n == 0 ==> r == 0
  {
    if n == 0 then 0 else if n <= d then 1 else 1 + CeilDiv(n - d, d)
  }

  /** `skip` then `take`, clipped to the rows there are. */
  function Window(rows: seq<Task>, skip: nat, take: nat): (r: seq<Task>)
    ensures |r| <= take
    ensures skip <= |rows| ==> |r| == if |rows| - skip < take then |rows| - skip else take
    ensures skip >= |rows| ==> r == []
    ensures forall i :: 0 <= i < |r| ==> skip + i < |rows| && r[i] == rows[skip + i]
  {
    if skip >= |rows| then []
    else if |rows| - skip < take then rows[skip..]
    else rows[skip..skip + take]
  }

  /** The response the list read computes from the store (a cache miss). */
  function ComputePage(store: seq<Task>, q: QueryTaskDto, userId: string): (resp: TasksResponse)
    requires QueryValid(q)
    ensures resp.meta.total == |ListRows(store, q, userId)|
    ensures resp.meta.page == q.page.GetOr(DefaultPage) && resp.meta.limit == q.limit.GetOr(DefaultLimit)
    ensures |resp.data| <= resp.meta.limit
    ensures forall i :: 0 <= i < |resp.data| ==>
              Paging(q).0 + i < resp.meta.total && resp.data[i] == ListRows(store, q, userId)[Paging(q).0 + i]
    ensures resp.meta.totalPages * resp.meta.limit >= resp.meta.total
    ensures resp.meta.total > 0 ==> (resp.meta.totalPages - 1) * resp.meta.limit < resp.meta.total
  {
    var rows := ListRows(store, q, userId);
    var (skip, take) := Paging(q);
    TasksResponse(
      Window(rows, skip, take),
      Meta(|rows|, q.page.GetOr(DefaultPage), take, CeilDiv(|rows|, take)))
  }

  /** The cache key of a list query: the owner's namespace followed by the serialized query. */
  function ListKey(userId: string, q: QueryTaskDto, serialize: QueryTaskDto -> string): (k: string)
    ensures Cache.StartsWith(k, Cache.TasksNamespace(userId))
  {
    var k := Cache.TasksNamespace(userId) + serialize(q);
    assert k[..|Cache.TasksNamespace(userId)|] == Cache.TasksNamespace(userId);
    k
  }

  /**
   * `findAll`: serves the cached response when there is one; otherwise reads the store,
   * caches the response under the owner's namespace, and returns it. `serialize` stands
   * for the JSON rendering of the query in the key.
   */
  function FindAll(sys: System, q: QueryTaskDto, userId: string, env: Env,
                   serialize: QueryTaskDto -> string): (r: Reply<TasksResponse>)
    requires QueryValid(q)
    ensures r.Ok?
    ensures var key := ListKey(userId, q, serialize);
      var hit := Cache.Get(sys.cache, key, env.getFault);
      && r.state.store == sys.store && r.state.hub == sys.hub && r.state.queue == sys.queue
      && (hit.Some? ==>
            && r.value == sys.cache[key].value
            && r.state == sys.(effects := sys.effects + [CacheRead(key)]))
      && (hit.None? ==>
            && r.value == ComputePage(sys.store, q, userId)
            && r.state.effects == sys.effects + [CacheRead(key), StoreRead(userId), CacheWritten(key)]
            && r.state.cache == Cache.Set(sys.cache, key, r.value, None, Cache.ConfiguredTtl(env.redisTtl), env.redisInt, env.setFault))
  {
    var key := ListKey(userId, q, serialize);
    match Cache.Get(sys.cache, key, env.getFault)
    case Some(cached) => Ok(sys.(effects := sys.effects + [CacheRead(key)]), cached)
    case None =>
      var result := ComputePage(sys.store, q, userId);
      var cache' := Cache.Set(sys.cache, key, result, None, Cache.ConfiguredTtl(env.redisTtl), env.redisInt, env.setFault);
      Ok(sys.(cache := cache', effects := sys.effects + [CacheRead(key), StoreRead(userId), CacheWritten(key)]), result)
  }

  // ---- Statistics ----

  datatype Stats = Stats(total: nat, byStatus: (nat, nat, nat), byPriority: (nat, nat, nat))

  /** `getTaskStats`: counts of the caller's tasks per status (pending, in progress, completed) and per priority. */
  function GetTaskStats(store: seq<Task>, userId: string): (s: Stats)
    ensures s.total == |Owned(store, userId)|
    ensures s.byStatus == (Count(Owned(store, userId), HasStatus(Pending)),
                           Count(Owned(store, userId), HasStatus(InProgress)),
                           Count(Owned(store, userId), HasStatus(Completed)))
    ensures s.byPriority == (Count(Owned(store, userId), HasPriority(Low)),
                             Count(Owned(store, userId), HasPriority(Medium)),
                             Count(Owned(store, userId), HasPriority(High)))
    ensures s.byStatus.0 + s.byStatus.1 + s.byStatus.2 == s.total
    ensures s.byPriority.0 + s.byPriority.1 + s.byPriority.2 == s.total
  {
    var tasks := Owned(store, userId);
    StatusCountsSum(tasks);
    PriorityCountsSum(tasks);
    Stats(
      |tasks|,
      (Count(tasks, HasStatus(Pending)), Count(tasks, HasStatus(InProgress)), Count(tasks, HasStatus(Completed))),
      (Count(tasks, HasPriority(Low)), Count(tasks, HasPriority(Medium)), Count(tasks, HasPriority(High))))
  }

  // ---- Properties ----

  /** Only a create with high priority publishes, and a create without a priority never does. */
  lemma PublishesOnlyHigh(sys: System, dto: CreateTaskDto, userId: string, env: Env)
    requires StatusValid(dto.status) && PriorityValid(dto.priority)
    ensures var r := Create(sys, dto, userId, env);
      r.Ok? ==> (Published(r.value.id) in r.state.effects[|sys.effects|..] <==> r.value.priority == High)
    ensures var r := Create(sys, dto, userId, env);
      r.Ok? && (dto.priority.None? || dto.priority.value != "high") ==> r.state.queue == sys.queue
  {
    var r := Create(sys, dto, userId, env);
    if r.Ok? {
      var added := r.state.effects[|sys.effects|..];
      assert added == MutationEffects(Saved(r.value.id), userId)
                      + (if r.value.priority == High then [Published(r.value.id)] else []);
      if dto.priority.None? || dto.priority.value != "high" {
        assert r.value.priority != High;
        assert r.state.queue == r.state.queue[..|sys.queue|];
      }
    }
  }

  /** Every successful mutation leaves no cached list of its owner: the next read recomputes. */
  lemma MutationForcesMiss(sys: System, userId: string, env: Env, q: QueryTaskDto,
                           serialize: QueryTaskDto -> string, id: string,
                           create: CreateTaskDto, patch: UpdateTaskDto, getFault: bool)
    requires StatusValid(create.status) && PriorityValid(create.priority)
    requires StatusValid(patch.status) && PriorityValid(patch.priority)
    requires !env.delFault
    ensures var r := Create(sys, create, userId, env);
      r.Ok? ==> Cache.Get(r.state.cache, ListKey(userId, q, serialize), getFault).None?
    ensures var r := Update(sys, id, patch, userId, env);
      r.Ok? ==> Cache.Get(r.state.cache, ListKey(userId, q, serialize), getFault).None?
    ensures var r := Remove(sys, id, userId, env);
      r.Ok? ==> Cache.Get(r.state.cache, ListKey(userId, q, serialize), getFault).None?
  {
  }

  /** A response with rows is on a page between the first and the last. */
  lemma PageWithinBounds(store: seq<Task>, q: QueryTaskDto, userId: string)
    requires QueryValid(q)
    requires ComputePage(store, q, userId).data != []
    ensures var m := ComputePage(store, q, userId).meta;
      1 <= m.page <= m.totalPages
  {
    var m := ComputePage(store, q, userId).meta;
    var skip := Paging(q).0;
    assert skip < m.total;
    FactorBelow(m.page - 1, m.totalPages, m.limit);
  }

  lemma {:induction false} DeleteKeepsUnique(store: seq<Task>, id: string)
    requires UniqueIds(store)
    ensures UniqueIds(DeleteRow(store, id))
  {
    if store != [] {
      var rest := store[1..];
      assert UniqueIds(rest) by {
        forall i | 0 <= i < |rest| ensures rest[i] == store[i + 1] { }
      }
      DeleteKeepsUnique(rest, id);
      var tail := DeleteRow(rest, id);
      var head := if store[0].id == id then [] else [store[0]];
      assert DeleteRow(store, id) == head + tail;
      forall t | t in tail ensures t.id != store[0].id {
        var i :| 0 <= i < |rest| && rest[i] == t;
        assert store[i + 1] == t;
      }
    }
  }

  /** Creates, updates and removals keep task ids unique. */
  lemma MutationsKeepUniqueIds(sys: System, userId: string, env: Env, id: string,
                               create: CreateTaskDto, patch: UpdateTaskDto)
    requires UniqueIds(sys.store)
    requires StatusValid(create.status) && PriorityValid(create.priority)
    requires StatusValid(patch.status) && PriorityValid(patch.priority)
    ensures Create(sys, create, userId, env).Ok? ==> UniqueIds(Create(sys, create, userId, env).state.store)
    ensures Update(sys, id, patch, userId, env).Ok? ==> UniqueIds(Update(sys, id, patch, userId, env).state.store)
    ensures Remove(sys, id, userId, env).Ok? ==> UniqueIds(Remove(sys, id, userId, env).state.store)
  {
    var c := Create(sys, create, userId, env);
    if c.Ok? {
      var s := c.state.store;
      forall i, j | 0 <= i < j < |s| ensures s[i].id != s[j].id {
        if j == |sys.store| {
          assert s[j] == c.value && s[i] == sys.store[i];
        } else {
          assert s[i] == sys.store[i] && s[j] == sys.store[j];
        }
      }
    }
    var u := Update(sys, id, patch, userId, env);
    if u.Ok? {
      var s := u.state.store;
      forall i | 0 <= i < |s| ensures s[i].id == sys.store[i].id { }
    }
    var d := Remove(sys, id, userId, env);
    if d.Ok? {
      assert d.state.store == DeleteRow(sys.store, id);
      DeleteKeepsUnique(sys.store, id);
    }
  }
}
