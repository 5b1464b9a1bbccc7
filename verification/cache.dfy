/**
 * The key-value cache in front of the task lists (backend/src/cache/cache.service.ts).
 * The cache is a map from key to value and time-to-live. Every client call takes a
 * `fault` input standing for an error from the cache server; each operation catches
 * it: a read then reports absence and a write leaves the map as it was.
 */
module Cache {
  import opened Wrappers

  /** TTL in seconds used when the configuration gives none. */
  const DefaultTtl := 300

  datatype Entry<V> = Entry(value: V, ttl: int)

  type Store<V> = map<string, Entry<V>>

  predicate StartsWith(s: string, prefix: string) {
    |prefix| <= |s| && s[..|prefix|] == prefix
  }

  /**
   * What `setEx` receives as its TTL argument: a number from the caller, or the
   * `REDIS_TTL` setting as the raw string the environment holds.
   */
  datatype TtlArg = Number(n: int) | Text(s: string)

  /**
   * The service's TTL, `configService.get('REDIS_TTL') || 300`. The setting is a string,
   * so only an unset or empty setting falls back to 300; "0" is kept as it is.
   */
  function ConfiguredTtl(setting: Option<string>): (t: TtlArg)
    ensures t == Number(DefaultTtl) <==> setting.None? || setting.value == ""
    ensures t.Text? <==> setting.Some? && setting.value != ""
    ensures t.Text? ==> t.s == setting.value
  {
    if Truthy(setting) then Text(setting.value) else Number(DefaultTtl)
  }

  /** The TTL one `set` passes on, `ttl || this.ttl`: its own argument unless absent or zero. */
  function EffectiveTtl(ttl: Option<int>, configured: TtlArg): (t: TtlArg)
    ensures ttl.Some? && ttl.value != 0 ==> t == Number(ttl.value)
    ensures (ttl.None? || ttl.value == 0) ==> t == configured
    ensures t == Number(0) ==> configured == Number(0)
  {
    if ttl.Some? && ttl.value != 0 then Number(ttl.value) else configured
  }

  /**
   * The seconds the cache server reads from a TTL argument. `readInt` is the server's
   * own reading of a string as an integer, an input of the model.
   */
  function Seconds(t: TtlArg, readInt: string -> Option<int>): Option<int> {
    match t
    case Number(n) => Some(n)
    case Text(s) => readInt(s)
  }

  /** The server accepts `setEx` only with a TTL that reads as a positive integer. */
  predicate Accepted(t: TtlArg, readInt: string -> Option<int>) {
    Seconds(t, readInt).Some? && Seconds(t, readInt).value > 0
  }

  /** `get`: the stored value, or None when the key is missing or the read fails. */
  function Get<V>(c: Store<V>, key: string, fault: bool): (r: Option<V>)
    ensures fault ==> r.None?
    ensures !fault ==> (r.Some? <==> key in c)
    ensures r.Some? ==> key in c && r.value == c[key].value
  {
    if !fault && key in c then Some(c[key].value) else None
  }

  /**
   * `set`: writes `key` with the effective TTL. The server refuses a TTL that is not a
   * positive integer; that error, like any other failed write, is caught and changes nothing.
   */
  function Set<V>(c: Store<V>, key: string, v: V, ttl: Option<int>, configured: TtlArg,
                  readInt: string -> Option<int>, fault: bool): (c': Store<V>)
    ensures fault || !Accepted(EffectiveTtl(ttl, configured), readInt) ==> c' == c
    ensures !fault && Accepted(EffectiveTtl(ttl, configured), readInt) ==>
              && c'.Keys == c.Keys + {key}
              && c'[key] == Entry(v, Seconds(EffectiveTtl(ttl, configured), readInt).value)
              && c'[key].ttl > 0
    ensures forall k :: k in c && k != key ==> k in c' && c'[k] == c[k]
  {
    var t := EffectiveTtl(ttl, configured);
    if fault || !Accepted(t, readInt) then c else c[key := Entry(v, Seconds(t, readInt).value)]
  }

  /** `del`: removes one key; a failed delete changes nothing. */
  function Del<V>(c: Store<V>, key: string, fault: bool): (c': Store<V>)
    ensures fault ==> c' == c
    ensures !fault ==> c'.Keys == c.Keys - {key}
    ensures forall k :: k in c' ==> k in c && c'[k] == c[k]
  {
    if fault then c else c - {key}
  }

  /** The keys the server lists for the glob `prefix*`. */
  function KeysWithPrefix<V>(c: Store<V>, prefix: string): (ks: set<string>)
    ensures forall k :: k in ks <==> k in c && StartsWith(k, prefix)
  {
    set k | k in c && StartsWith(k, prefix)
  }

  /**
   * `delPattern(prefix + "*")`: lists the matching keys, deletes them when there are
   * any, and on a failure leaves the map untouched.
   */
  function DelPattern<V>(c: Store<V>, prefix: string, fault: bool): (c': Store<V>)
    ensures fault ==> c' == c
    ensures !fault ==> forall k :: k in c' <==> k in c && !StartsWith(k, prefix)
    ensures forall k :: k in c' ==> k in c && c'[k] == c[k]
  {
    if fault then c
    else
      var keys := KeysWithPrefix(c, prefix);
      if |keys| > 0 then c - keys else c
  }

  /** The key namespace of one user's task lists. */
  function TasksNamespace(userId: string): string {
    "tasks:" + userId + ":"
  }

  function AnalyticsNamespace(userId: string): string {
    "analytics:" + userId + ":"
  }

  function InvalidateTasksCache<V>(c: Store<V>, userId: string, fault: bool): (c': Store<V>)
    ensures !fault ==> forall k :: k in c' ==> !StartsWith(k, TasksNamespace(userId))
    ensures !fault ==> forall k :: k in c && !StartsWith(k, TasksNamespace(userId)) ==> k in c' && c'[k] == c[k]
    ensures fault ==> c' == c
    ensures forall k :: k in c' ==> k in c && c'[k] == c[k]
  {
    DelPattern(c, TasksNamespace(userId), fault)
  }

  function InvalidateAnalyticsCache<V>(c: Store<V>, userId: string, fault: bool): (c': Store<V>)
    ensures !fault ==> forall k :: k in c' ==> !StartsWith(k, AnalyticsNamespace(userId))
    ensures !fault ==> forall k :: k in c && !StartsWith(k, AnalyticsNamespace(userId)) ==> k in c' && c'[k] == c[k]
    ensures fault ==> c' == c
    ensures forall k :: k in c' ==> k in c && c'[k] == c[k]
  {
    DelPattern(c, AnalyticsNamespace(userId), fault)
  }

  // ---- Properties ----

  /** A successful `set` with an accepted TTL is read back by the next successful `get`. */
  lemma GetAfterSet<V>(c: Store<V>, key: string, v: V, ttl: Option<int>, configured: TtlArg,
                       readInt: string -> Option<int>)
    ensures Accepted(EffectiveTtl(ttl, configured), readInt) ==>
              Get(Set(c, key, v, ttl, configured, readInt, false), key, false) == Some(v)
    ensures !Accepted(EffectiveTtl(ttl, configured), readInt) ==>
              Get(Set(c, key, v, ttl, configured, readInt, false), key, false) == Get(c, key, false)
  {
  }

  /**
   * With `REDIS_TTL=0` and no per-call TTL nothing is ever cached: the setting "0" is a
   * non-empty string, so it is passed on, and the server refuses a zero TTL.
   */
  lemma ZeroTtlSettingCachesNothing<V>(c: Store<V>, key: string, v: V,
                                       readInt: string -> Option<int>, fault: bool)
    requires readInt("0") == Some(0)
    ensures Set(c, key, v, None, ConfiguredTtl(Some("0")), readInt, fault) == c
  {
  }

  /** A `set` of another key, or the deletion of a namespace not covering `key`, keeps `get(key)`. */
  lemma GetUnaffected<V>(c: Store<V>, key: string, other: string, v: V, ttl: Option<int>,
                         configured: TtlArg, readInt: string -> Option<int>, prefix: string,
                         f1: bool, f2: bool)
    requires other != key
    requires !StartsWith(key, prefix)
    ensures Get(Set(c, other, v, ttl, configured, readInt, f1), key, false) == Get(c, key, false)
    ensures Get(DelPattern(c, prefix, f2), key, false) == Get(c, key, false)
  {
  }

  /** Invalidating a namespace that holds no key changes nothing. */
  lemma InvalidateEmptyNamespace<V>(c: Store<V>, userId: string, fault: bool)
    requires forall k :: k in c ==> !StartsWith(k, TasksNamespace(userId))
    ensures InvalidateTasksCache(c, userId, fault) == c
  {
  }

  /** Invalidating twice is the same as invalidating once. */
  lemma InvalidateIdempotent<V>(c: Store<V>, userId: string, f1: bool, f2: bool)
    ensures InvalidateTasksCache(InvalidateTasksCache(c, userId, f1), userId, f2)
         == InvalidateTasksCache(c, userId, f1 && f2)
  {
  }

  predicate NoColon(s: string) {
    forall i :: 0 <= i < |s| ==> s[i] != ':'
  }

  /**
   * For colon-free user ids (the ids are UUIDs) one user's namespace never covers
   * another user's: a key under `tasks:v:` does not start with `tasks:u:` for u != v.
   */
  lemma NamespacesDisjoint(u: string, v: string, rest: string)
    requires NoColon(u) && NoColon(v) && u != v
    ensures !StartsWith(TasksNamespace(v) + rest, TasksNamespace(u))
  {
    var k := TasksNamespace(v) + rest;
    var p := TasksNamespace(u);
    // Find a position inside p where k and p differ.
    var i: nat;
    if |u| < |v| {
      i := 6 + |u|;
      assert p[i] == ':' && k[i] == v[|u|];
    } else if |u| > |v| {
      i := 6 + |v|;
      assert k[i] == ':' && p[i] == u[|v|];
    } else {
      var j :| 0 <= j < |u| && u[j] != v[j];
      i := 6 + j;
      assert p[i] == u[j] && k[i] == v[j];
    }
    assert i < |p| && (i >= |k| || k[i] != p[i]);
  }

  /** A user's invalidation keeps other users' task keys and every analytics key. */
  lemma InvalidateKeepsOthers<V>(c: Store<V>, u: string, v: string, rest: string)
    requires NoColon(u) && NoColon(v) && u != v
    ensures TasksNamespace(v) + rest in c ==>
              TasksNamespace(v) + rest in InvalidateTasksCache(c, u, false)
    ensures AnalyticsNamespace(v) + rest in c ==>
              AnalyticsNamespace(v) + rest in InvalidateTasksCache(c, u, false)
  {
    NamespacesDisjoint(u, v, rest);
    var a := AnalyticsNamespace(v) + rest;
    var p := TasksNamespace(u);
    assert a[0] == 'a' && p[0] == 't';
    assert !StartsWith(a, p);
  }
}
