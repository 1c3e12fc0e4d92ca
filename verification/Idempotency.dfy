/** The idempotency layer in front of marked POST routes: the cache key, what a stored entry means for
    a request, and the dispatch of one request. IdempotencyConcurrent interleaves requests. */
module Idempotency {
  import opened Wrappers

  type Hash = string

  datatype Response = Response(status: nat, body: string)

  datatype Stored = InProgress(hash: Hash) | Completed(hash: Hash, response: Response) | NotJson

  datatype Entry = Entry(value: Stored, expires: nat)

  type Store = map<string, Entry>

  // Lifetimes of the lock and of a cached response.
  datatype Config = Config(lockTtl: nat, cacheTtl: nat)

  predicate Success(r: Response) { 200 <= r.status < 300 }

  predicate Live(store: Store, key: string, now: nat) { key in store && now < store[key].expires }

  // ---------- The cache key ----------

  function BuildCacheKey(subject: string, path: string, clientKey: string): string {
    "idem:" + subject + ":" + path + ":" + clientKey
  }

  lemma {:induction false} SplitAtColon(a: string, x: string, b: string, y: string)
    requires ':' !in a && ':' !in b && a + ":" + x == b + ":" + y
    ensures a == b && x == y
    decreases a
  {
    var u, v := a + ":" + x, b + ":" + y;
    assert u[0] == (if a == [] then ':' else a[0]) && v[0] == (if b == [] then ':' else b[0]);
    assert (a != [] ==> a[0] in a) && (b != [] ==> b[0] in b);
    if a == [] {
      assert u[1..] == x && v[1..] == y;
    } else {
      assert u[1..] == a[1..] + ":" + x && v[1..] == b[1..] + ":" + y;
      SplitAtColon(a[1..], x, b[1..], y);
    }
  }

  /** Subjects without a colon, as user ids and "anon" are, never share a key. */
  lemma KeysMeetExactlyWhen(s1: string, p1: string, k1: string, s2: string, p2: string, k2: string)
    requires ':' !in s1 && ':' !in s2
    ensures BuildCacheKey(s1, p1, k1) == BuildCacheKey(s2, p2, k2) <==> s1 == s2 && p1 + ":" + k1 == p2 + ":" + k2
  {
    assert BuildCacheKey(s1, p1, k1) == "idem:" + (s1 + ":" + (p1 + ":" + k1));
    assert BuildCacheKey(s2, p2, k2) == "idem:" + (s2 + ":" + (p2 + ":" + k2));
    if BuildCacheKey(s1, p1, k1) == BuildCacheKey(s2, p2, k2) {
      assert ("idem:" + (s1 + ":" + (p1 + ":" + k1)))[5..] == s1 + ":" + (p1 + ":" + k1);
      assert ("idem:" + (s2 + ":" + (p2 + ":" + k2)))[5..] == s2 + ":" + (p2 + ":" + k2);
      SplitAtColon(s1, p1 + ":" + k1, s2, p2 + ":" + k2);
    }
  }

  /** Where the path has no colon either, the whole key is unambiguous. */
  lemma PlainPathsAreTold(s1: string, p1: string, k1: string, s2: string, p2: string, k2: string)
    requires ':' !in s1 && ':' !in s2 && ':' !in p1 && ':' !in p2
    requires BuildCacheKey(s1, p1, k1) == BuildCacheKey(s2, p2, k2)
    ensures s1 == s2 && p1 == p2 && k1 == k2
    ensures BuildCacheKey(s1, p1, k1)[..5] == "idem:"
  {
    KeysMeetExactlyWhen(s1, p1, k1, s2, p2, k2);
    SplitAtColon(p1, k1, p2, k2);
  }

  /** A path with a colon can take over the key of another path of the same subject. */
  lemma ColonInPathCollides()
    ensures BuildCacheKey("7", "/jobs/3:run", "x") == BuildCacheKey("7", "/jobs/3", "run:x")
  {
    assert "/jobs/3:run" + ":" + "x" == "/jobs/3" + ":" + "run:x";
    KeysMeetExactlyWhen("7", "/jobs/3:run", "x", "7", "/jobs/3", "run:x");
  }

  // ---------- A stored entry and a request ----------

  datatype Verdict = Replay(response: Response) | InFlight | KeyReused

  /** The answer to a request that finds an entry. */
  function Resolve(value: Stored, hash: Hash): Verdict {
    match value
    case NotJson => InFlight
    case InProgress(h) => if h != hash then KeyReused else InFlight
    case Completed(h, response) => if h != hash then KeyReused else Replay(response)
  }

  // ---------- One request ----------

  class KeyValueStore {
    var entries: Store
    var now: nat
    var up: bool

    constructor (now: nat)
      ensures entries == map[] && this.now == now && up
    {
      entries, this.now, up := map[], now, true;
    }

    method SetNx(key: string, ttl: nat, value: Stored) returns (done: bool)
      modifies this`entries
      ensures done <==> up && !Live(old(entries), key, now)
      ensures entries == if done then old(entries)[key := Entry(value, now + ttl)] else old(entries)
    {
      done := up && !Live(entries, key, now);
      if done { entries := entries[key := Entry(value, now + ttl)]; }
    }

    method Get(key: string) returns (value: Option<Stored>)
      ensures value == if up && Live(entries, key, now) then Some(entries[key].value) else None
    {
      value := if up && Live(entries, key, now) then Some(entries[key].value) else None;
    }

    method SetEx(key: string, ttl: nat, value: Stored)
      modifies this`entries
      ensures entries == if up then old(entries)[key := Entry(value, now + ttl)] else old(entries)
    {
      if up { entries := entries[key := Entry(value, now + ttl)]; }
    }
  }

  datatype Answer = Ran(response: Response) | Stopped(verdict: Verdict)

  class IdempotencyMiddleware {
    const store: KeyValueStore
    const config: Config

    constructor (store: KeyValueStore, config: Config)
      ensures this.store == store && this.config == config
    {
      this.store, this.config := store, config;
    }

    method ResolveConflict(key: string, hash: Hash) returns (v: Option<Verdict>)
      ensures v == if store.up && Live(store.entries, key, store.now)
                   then Some(Resolve(store.entries[key].value, hash)) else None
    {
      var existing := store.Get(key);
      if existing.None? { return None; }
      var stored := existing.value;
      if stored.NotJson? { return Some(InFlight); }
      if stored.hash != hash { return Some(KeyReused); }
      if stored.Completed? { return Some(Replay(stored.response)); }
      v := Some(InFlight);
    }

    /** One request from lock to answer with nothing in between; `handler` is what the route would
        answer. The handler is not run exactly when the store is up and has a live entry; a success is
        then cached, and anything else leaves only the lock behind. */
    method Dispatch(key: string, hash: Hash, handler: Response) returns (a: Answer)
      modifies store`entries
      ensures var live := store.up && key in old(store.entries) && store.now < old(store.entries)[key].expires;
              && (a.Stopped? <==> live)
              && (live ==>
                    var value := old(store.entries)[key].value;
                    && store.entries == old(store.entries)
                    && (a.verdict == KeyReused <==> !value.NotJson? && value.hash != hash)
                    && (a.verdict.Replay? ==> value == Completed(hash, a.verdict.response))
                    && (a.verdict == InFlight <==> value.NotJson? || value == InProgress(hash)))
      ensures a.Ran? ==> a.response == handler
      ensures a.Ran? && store.up ==>
                store.entries == old(store.entries)[key :=
                  if 200 <= handler.status < 300 then Entry(Completed(hash, handler), store.now + config.cacheTtl)
                  else Entry(InProgress(hash), store.now + config.lockTtl)]
      ensures !store.up ==> store.entries == old(store.entries)
    {
      var acquired := store.SetNx(key, config.lockTtl, InProgress(hash));
      if !acquired {
        var conflict := ResolveConflict(key, hash);
        if conflict.Some? { return Stopped(conflict.value); }
      }
      if Success(handler) { store.SetEx(key, config.cacheTtl, Completed(hash, handler)); }
      a := Ran(handler);
    }
  }

  /** A success is run once: the same request again gets that response and no second run for exactly as long
      as the response is cached, and another body under the same key is refused in that time. */
  method RetryIsReplayed(m: IdempotencyMiddleware, key: string, hash: Hash, other: Hash,
                         first: Response, second: Response, later: nat) returns (again: Answer, reused: Answer)
    requires m.store.up && (key in m.store.entries ==> m.store.entries[key].expires <= m.store.now) && hash != other
    requires 200 <= first.status < 300
    modifies m.store
    ensures again == if later < m.config.cacheTtl then Stopped(Replay(first)) else Ran(second)
    ensures later < m.config.cacheTtl ==> reused == Stopped(KeyReused)
  {
    var a := m.Dispatch(key, hash, first);
    m.store.now := m.store.now + later;
    again := m.Dispatch(key, hash, second);
    reused := m.Dispatch(key, other, second);
  }

  /** Anything but a success is not cached: the same request again is told that the first one is in flight for as
      long as the lock lasts, and then it is run. */
  method RetryAfterFailure(m: IdempotencyMiddleware, key: string, hash: Hash, other: Hash,
                           first: Response, second: Response, later: nat) returns (again: Answer, reused: Answer)
    requires m.store.up && (key in m.store.entries ==> m.store.entries[key].expires <= m.store.now) && hash != other
    requires first.status < 200 || first.status >= 300
    modifies m.store
    ensures again == if later < m.config.lockTtl then Stopped(InFlight) else Ran(second)
    ensures later < m.config.lockTtl ==> reused == Stopped(KeyReused)
  {
    var a := m.Dispatch(key, hash, first);
    m.store.now := m.store.now + later;
    again := m.Dispatch(key, hash, second);
    reused := m.Dispatch(key, other, second);
  }
}
