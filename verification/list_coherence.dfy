/**
 * Coherence of the list cache. The task service caches each list response under
 * `tasks:<userId>:<query>` and every successful mutation deletes the owner's whole
 * namespace. This module proves what that design buys: as long as the deletions
 * succeed, every cached list equals what the store would compute now, so every list
 * read returns current data, whether it hits the cache or not. It also shows the
 * price of the fail-open cache client: a failed deletion lets a stale list be served.
 *
 * The argument needs two facts about keys: user ids contain no ':' (they are UUIDs),
 * and the serialization of a query is injective, so a key names one owner and one query.
 */
module ListCoherence {
  import opened Wrappers
  import opened Types
  import opened Validation
  import opened TaskQueries
  import opened Cache
  import opened TasksService

  ghost predicate Injective(serialize: QueryTaskDto -> string) {
    forall q1, q2 :: serialize(q1) == serialize(q2) ==> q1 == q2
  }

  /** Every cached list of a colon-free user is the response the current store gives. */
  ghost predicate Coherent(sys: System, serialize: QueryTaskDto -> string) {
    forall u, q ::
      NoColon(u) && QueryValid(q) && ListKey(u, q, serialize) in sys.cache ==>
        sys.cache[ListKey(u, q, serialize)].value == ComputePage(sys.store, q, u)
  }

  /** A list key names exactly one owner and one query. */
  lemma ListKeyInjective(u: string, q: QueryTaskDto, v: string, q': QueryTaskDto,
                         serialize: QueryTaskDto -> string)
    requires NoColon(u) && NoColon(v) && Injective(serialize)
    ensures ListKey(u, q, serialize) == ListKey(v, q', serialize) ==> u == v && q == q'
  {
    var k, k' := ListKey(u, q, serialize), ListKey(v, q', serialize);
    if u != v {
      NamespacesDisjoint(u, v, serialize(q'));
      assert k' == TasksNamespace(v) + serialize(q');
      assert StartsWith(k, TasksNamespace(u)) && !StartsWith(k', TasksNamespace(u));
    } else {
      var n := |TasksNamespace(u)|;
      assert k[n..] == serialize(q) && k'[n..] == serialize(q');
    }
  }

  // ---- Other owners' rows are untouched by a mutation ----

  /** Appending a row owned by someone else leaves `v`'s selections as they were. */
  lemma AppendKeepsOthers(store: seq<Task>, t: Task, v: string, c: Criterion)
    requires t.userId != v
    ensures Filter(store + [t], And(OwnedBy(v), c)) == Filter(store, And(OwnedBy(v), c))
  {
    FilterAppend(store, [t], And(OwnedBy(v), c));
    FilterSingleton(t, And(OwnedBy(v), c));
  }

  /** Rewriting rows that belong to someone else leaves `v`'s selections as they were. */
  lemma {:induction false} ReplaceKeepsOthers(store: seq<Task>, t: Task, v: string, c: Criterion)
    requires forall i :: 0 <= i < |store| && store[i].id == t.id ==> store[i].userId == t.userId
    requires t.userId != v
    ensures Filter(ReplaceRow(store, t), And(OwnedBy(v), c)) == Filter(store, And(OwnedBy(v), c))
  {
    var p := And(OwnedBy(v), c);
    if store != [] {
      var h := store[0];
      var rest := store[1..];
      var h' := if h.id == t.id then t else h;
      assert store == [h] + rest;
      assert ReplaceRow(store, t) == [h'] + ReplaceRow(rest, t);
      assert Filter([h'], p) == Filter([h], p) by {
        FilterSingleton(h, p);
        FilterSingleton(h', p);
      }
      assert forall i :: 0 <= i < |rest| && rest[i].id == t.id ==> rest[i].userId == t.userId by {
        forall i | 0 <= i < |rest| ensures rest[i] == store[i + 1] { }
      }
      ReplaceKeepsOthers(rest, t, v, c);
      FilterAppend([h], rest, p);
      FilterAppend([h'], ReplaceRow(rest, t), p);
    }
  }

  /** Dropping a row of someone else does not change `v`'s selection of it. */
  lemma DropOthersRow(h: Task, id: string, v: string, c: Criterion)
    requires h.id == id ==> h.userId != v
    ensures Filter(if h.id == id then [] else [h], And(OwnedBy(v), c)) == Filter([h], And(OwnedBy(v), c))
  {
    FilterSingleton(h, And(OwnedBy(v), c));
  }

  /** Deleting rows that belong to someone else leaves `v`'s selections as they were. */
  lemma {:induction false} DeleteKeepsOthers(store: seq<Task>, id: string, v: string, c: Criterion)
    requires forall i :: 0 <= i < |store| && store[i].id == id ==> store[i].userId != v
    ensures Filter(DeleteRow(store, id), And(OwnedBy(v), c)) == Filter(store, And(OwnedBy(v), c))
  {
    var p := And(OwnedBy(v), c);
    if store != [] {
      var h := store[0];
      var rest := store[1..];
      var kept := if h.id == id then [] else [h];
      assert store == [h] + rest;
      assert DeleteRow(store, id) == kept + DeleteRow(rest, id);
      DropOthersRow(h, id, v, c);
      assert forall i :: 0 <= i < |rest| && rest[i].id == id ==> rest[i].userId != v by {
        forall i | 0 <= i < |rest| ensures rest[i] == store[i + 1] { }
      }
      DeleteKeepsOthers(rest, id, v, c);
      calc {
        Filter(DeleteRow(store, id), p);
        { FilterAppend(kept, DeleteRow(rest, id), p); }
        Filter(kept, p) + Filter(DeleteRow(rest, id), p);
        Filter([h], p) + Filter(rest, p);
        { FilterAppend([h], rest, p); }
        Filter(store, p);
      }
    }
  }

  /** With unique ids, the row found by id is the only row carrying that id. */
  lemma UniqueRow(store: seq<Task>, t: Task, i: int)
    requires UniqueIds(store) && t in store
    requires 0 <= i < |store| && store[i].id == t.id
    ensures store[i] == t
  {
    var j :| 0 <= j < |store| && store[j] == t;
    assert store[j].id == store[i].id;
  }

  // ---- The invariant under each operation ----

  /**
   * A list read keeps the cache coherent and, from a coherent cache, returns exactly
   * the response the current store gives: a hit is as good as a miss.
   */
  lemma FindAllKeepsCoherent(sys: System, q: QueryTaskDto, u: string, env: Env,
                             serialize: QueryTaskDto -> string)
    requires Coherent(sys, serialize) && Injective(serialize) && NoColon(u) && QueryValid(q)
    ensures FindAll(sys, q, u, env, serialize).value == ComputePage(sys.store, q, u)
    ensures Coherent(FindAll(sys, q, u, env, serialize).state, serialize)
  {
    var r := FindAll(sys, q, u, env, serialize);
    var key := ListKey(u, q, serialize);
    forall v, q' | NoColon(v) && QueryValid(q') && ListKey(v, q', serialize) in r.state.cache
      ensures r.state.cache[ListKey(v, q', serialize)].value == ComputePage(r.state.store, q', v)
    {
      ListKeyInjective(u, q, v, q', serialize);
    }
  }

  /** A create whose invalidation succeeds keeps the cache coherent. */
  lemma CreateKeepsCoherent(sys: System, dto: CreateTaskDto, u: string, env: Env,
                            serialize: QueryTaskDto -> string)
    requires StatusValid(dto.status) && PriorityValid(dto.priority)
    requires Coherent(sys, serialize) && !env.delFault
    ensures Create(sys, dto, u, env).Ok? ==> Coherent(Create(sys, dto, u, env).state, serialize)
  {
    var r := Create(sys, dto, u, env);
    if r.Ok? {
      forall v, q | NoColon(v) && QueryValid(q) && ListKey(v, q, serialize) in r.state.cache
        ensures r.state.cache[ListKey(v, q, serialize)].value == ComputePage(r.state.store, q, v)
      {
        var k := ListKey(v, q, serialize);
        assert !StartsWith(k, TasksNamespace(u));
        assert v != u;
        AppendKeepsOthers(sys.store, r.value, v, ListCriterion(q, v).right);
        assert ListRows(r.state.store, q, v) == ListRows(sys.store, q, v);
      }
    }
  }

  /** An update whose invalidation succeeds keeps the cache coherent. */
  lemma UpdateKeepsCoherent(sys: System, id: string, dto: UpdateTaskDto, u: string, env: Env,
                            serialize: QueryTaskDto -> string)
    requires StatusValid(dto.status) && PriorityValid(dto.priority)
    requires Coherent(sys, serialize) && UniqueIds(sys.store) && !env.delFault
    ensures Update(sys, id, dto, u, env).Ok? ==> Coherent(Update(sys, id, dto, u, env).state, serialize)
  {
    var r := Update(sys, id, dto, u, env);
    if r.Ok? {
      var found := Lookup(sys.store, id, u).value;
      forall i | 0 <= i < |sys.store| && sys.store[i].id == r.value.id
        ensures sys.store[i].userId == r.value.userId
      {
        UniqueRow(sys.store, found, i);
      }
      forall v, q | NoColon(v) && QueryValid(q) && ListKey(v, q, serialize) in r.state.cache
        ensures r.state.cache[ListKey(v, q, serialize)].value == ComputePage(r.state.store, q, v)
      {
        var k := ListKey(v, q, serialize);
        assert !StartsWith(k, TasksNamespace(u));
        assert v != u;
        ReplaceKeepsOthers(sys.store, r.value, v, ListCriterion(q, v).right);
        assert ListRows(r.state.store, q, v) == ListRows(sys.store, q, v);
      }
    }
  }

  /** A removal whose invalidation succeeds keeps the cache coherent. */
  lemma RemoveKeepsCoherent(sys: System, id: string, u: string, env: Env,
                            serialize: QueryTaskDto -> string)
    requires Coherent(sys, serialize) && UniqueIds(sys.store) && !env.delFault
    ensures Remove(sys, id, u, env).Ok? ==> Coherent(Remove(sys, id, u, env).state, serialize)
  {
    var r := Remove(sys, id, u, env);
    if r.Ok? {
      var found := Lookup(sys.store, id, u).value;
      assert r.state.store == DeleteRow(sys.store, id);
      forall v, q | NoColon(v) && QueryValid(q) && ListKey(v, q, serialize) in r.state.cache
        ensures r.state.cache[ListKey(v, q, serialize)].value == ComputePage(r.state.store, q, v)
      {
        var k := ListKey(v, q, serialize);
        assert !StartsWith(k, TasksNamespace(u));
        assert v != u;
        forall i | 0 <= i < |sys.store| && sys.store[i].id == id
          ensures sys.store[i].userId != v
        {
          UniqueRow(sys.store, found, i);
        }
        DeleteKeepsOthers(sys.store, id, v, ListCriterion(q, v).right);
        assert ListRows(r.state.store, q, v) == ListRows(sys.store, q, v);
      }
    }
  }

  // ---- Runs of requests ----

  datatype Request =
    | CreateTask(dto: CreateTaskDto, userId: string)
    | UpdateTask(id: string, patch: UpdateTaskDto, userId: string)
    | RemoveTask(id: string, userId: string)
    | ListTasks(query: QueryTaskDto, userId: string)

  /** What the request pipeline guarantees before a service call: a UUID owner and a validated body. */
  predicate Admissible(req: Request) {
    && NoColon(req.userId)
    && match req
       case CreateTask(dto, _) => StatusValid(dto.status) && PriorityValid(dto.priority)
       case UpdateTask(_, patch, _) => StatusValid(patch.status) && PriorityValid(patch.priority)
       case RemoveTask(_, _) => true
       case ListTasks(q, _) => QueryValid(q)
  }

  /** One request against the system; a request that fails leaves it unchanged. */
  function Step(sys: System, req: Request, env: Env, serialize: QueryTaskDto -> string): System
    requires Admissible(req)
  {
    match req
    case CreateTask(dto, u) =>
      var r := Create(sys, dto, u, env); if r.Ok? then r.state else sys
    case UpdateTask(id, patch, u) =>
      var r := Update(sys, id, patch, u, env); if r.Ok? then r.state else sys
    case RemoveTask(id, u) =>
      var r := Remove(sys, id, u, env); if r.Ok? then r.state else sys
    case ListTasks(q, u) =>
      FindAll(sys, q, u, env, serialize).state
  }

  function Run(sys: System, reqs: seq<Request>, envs: seq<Env>, serialize: QueryTaskDto -> string): System
    requires |envs| == |reqs|
    requires forall i :: 0 <= i < |reqs| ==> Admissible(reqs[i])
    decreases |reqs|
  {
    if reqs == [] then sys
    else Run(Step(sys, reqs[0], envs[0], serialize), reqs[1..], envs[1..], serialize)
  }

  predicate NoFailedInvalidation(envs: seq<Env>) {
    forall i :: 0 <= i < |envs| ==> !envs[i].delFault
  }

  lemma StepKeepsInvariant(sys: System, req: Request, env: Env, serialize: QueryTaskDto -> string)
    requires Admissible(req) && Injective(serialize) && !env.delFault
    requires Coherent(sys, serialize) && UniqueIds(sys.store)
    ensures Coherent(Step(sys, req, env, serialize), serialize)
    ensures UniqueIds(Step(sys, req, env, serialize).store)
  {
    match req
    case CreateTask(dto, u) =>
      CreateKeepsCoherent(sys, dto, u, env, serialize);
      MutationsKeepUniqueIds(sys, u, env, "", dto, UpdateTaskDto(None, None, None, None, None));
    case UpdateTask(id, patch, u) =>
      UpdateKeepsCoherent(sys, id, patch, u, env, serialize);
      MutationsKeepUniqueIds(sys, u, env, id, CreateTaskDto("", None, None, None, None), patch);
    case RemoveTask(id, u) =>
      RemoveKeepsCoherent(sys, id, u, env, serialize);
      MutationsKeepUniqueIds(sys, u, env, id, CreateTaskDto("", None, None, None, None), UpdateTaskDto(None, None, None, None, None));
    case ListTasks(q, u) =>
      FindAllKeepsCoherent(sys, q, u, env, serialize);
  }

  lemma {:induction false} RunKeepsInvariant(sys: System, reqs: seq<Request>, envs: seq<Env>,
                                             serialize: QueryTaskDto -> string)
    requires |envs| == |reqs| && (forall i :: 0 <= i < |reqs| ==> Admissible(reqs[i]))
    requires Injective(serialize) && NoFailedInvalidation(envs)
    requires Coherent(sys, serialize) && UniqueIds(sys.store)
    ensures Coherent(Run(sys, reqs, envs, serialize), serialize)
    ensures UniqueIds(Run(sys, reqs, envs, serialize).store)
    decreases |reqs|
  {
    if reqs != [] {
      StepKeepsInvariant(sys, reqs[0], envs[0], serialize);
      var next := Step(sys, reqs[0], envs[0], serialize);
      assert forall i :: 0 <= i < |reqs[1..]| ==> reqs[1..][i] == reqs[i + 1];
      assert forall i :: 0 <= i < |envs[1..]| ==> envs[1..][i] == envs[i + 1];
      RunKeepsInvariant(next, reqs[1..], envs[1..], serialize);
    }
  }

  /**
   * Starting from an empty cache, after any run in which no invalidation fails, a list
   * read returns exactly the current contents of the store.
   */
  lemma ListReadsAreFresh(sys: System, reqs: seq<Request>, envs: seq<Env>,
                          serialize: QueryTaskDto -> string, q: QueryTaskDto, u: string, env: Env)
    requires |envs| == |reqs| && (forall i :: 0 <= i < |reqs| ==> Admissible(reqs[i]))
    requires Injective(serialize) && NoFailedInvalidation(envs)
    requires sys.cache == map[] && UniqueIds(sys.store)
    requires NoColon(u) && QueryValid(q)
    ensures var s := Run(sys, reqs, envs, serialize);
      FindAll(s, q, u, env, serialize).value == ComputePage(s.store, q, u)
  {
    RunKeepsInvariant(sys, reqs, envs, serialize);
    FindAllKeepsCoherent(Run(sys, reqs, envs, serialize), q, u, env, serialize);
  }

  /**
   * The cache client fails open: when the invalidation after a create fails, a list
   * that was cached before is served again and misses the new task.
   */
  lemma StaleListAfterFailedInvalidation(sys: System, dto: CreateTaskDto, u: string, env: Env,
                                         serialize: QueryTaskDto -> string, q: QueryTaskDto)
    requires StatusValid(dto.status) && PriorityValid(dto.priority)
    requires Coherent(sys, serialize) && NoColon(u) && QueryValid(q)
    requires q.status.None? && q.priority.None?
    requires ListKey(u, q, serialize) in sys.cache
    requires env.delFault && !env.getFault
    requires Create(sys, dto, u, env).Ok?
    ensures var s := Create(sys, dto, u, env).state;
      FindAll(s, q, u, env, serialize).value.meta.total + 1 == ComputePage(s.store, q, u).meta.total
  {
    var r := Create(sys, dto, u, env);
    var key := ListKey(u, q, serialize);
    assert r.state.cache == sys.cache;
    var before := sys.cache[key].value;
    assert before == ComputePage(sys.store, q, u);
    assert FindAll(r.state, q, u, env, serialize).value == before;
    var p := ListCriterion(q, u);
    assert p == And(OwnedBy(u), And(Any, Any));
    assert Holds(And(Any, Any), r.value);
    FilterAppend(sys.store, [r.value], p);
    FilterSingleton(r.value, p);
    assert ListRows(r.state.store, q, u) == ListRows(sys.store, q, u) + [r.value];
  }
}
