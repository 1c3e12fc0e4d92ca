/** Any number of idempotent requests over one shared store, interleaved at every store operation.
    Entries expire as time passes; a store operation may fail, and a failed write may have been done
    or not. */
module IdempotencyConcurrent {
  import opened Wrappers
  import opened Idempotency

  type Rid = nat

  // What a request asks: subject, path and client key make the cache key.
  datatype Ask = Ask(subject: string, path: string, clientKey: string, hash: Hash)

  datatype Pc =
    | Arrived
    | Refused                                   // set_nx said no
    | Running(lockedAt: Option<nat>)            // the handler runs; None: without the lock
    | Caching(lockedAt: Option<nat>, response: Response)
    | Answered

  datatype Req = Req(ask: Ask, pc: Pc)

  // A handler run that ended.
  datatype HandlerRun = HandlerRun(ask: Ask, response: Response)

  datatype Sys = Sys(now: nat, store: Store, reqs: map<Rid, Req>, runs: seq<HandlerRun>)

  datatype Action =
    | Tick(now: nat)
    | Arrive(r: Rid, ask: Ask)
    | SetNx(r: Rid, failed: bool, written: bool)
    | Get(r: Rid, failed: bool)
    | Finish(r: Rid, response: Response)
    | SetEx(r: Rid, failed: bool, written: bool)
    | Crash(r: Rid)
    | Corrupt(key: string)                      // bytes that are not JSON

  function Key(ask: Ask): string { BuildCacheKey(ask.subject, ask.path, ask.clientKey) }

  function Goto(s: Sys, r: Rid, pc: Pc): Sys
    requires r in s.reqs
  {
    s.(reqs := s.reqs[r := s.reqs[r].(pc := pc)])
  }

  function Written(s: Sys, key: string, value: Stored, ttl: nat): Sys {
    s.(store := s.store[key := Entry(value, s.now + ttl)])
  }

  ghost predicate SetsNx(c: Config, s: Sys, r: Rid, failed: bool, written: bool, s': Sys)
    requires r in s.reqs
  {
    var ask := s.reqs[r].ask;
    && s.reqs[r].pc.Arrived?
    && if !failed then
         if Live(s.store, Key(ask), s.now) then s' == Goto(s, r, Refused)
         else s' == Written(Goto(s, r, Running(Some(s.now))), Key(ask), InProgress(ask.hash), c.lockTtl)
       else
         var s1 := Goto(s, r, Refused);
         s' == if written && !Live(s.store, Key(ask), s.now) then Written(s1, Key(ask), InProgress(ask.hash),
             c.lockTtl) else s1
  }

  /** Nothing found, or no answer from the store: the handler runs without the lock. */
  ghost predicate Gets(s: Sys, r: Rid, failed: bool, s': Sys)
    requires r in s.reqs
  {
    && s.reqs[r].pc.Refused?
    && s' == Goto(s, r, if !failed && Live(s.store, Key(s.reqs[r].ask), s.now) then Answered else Running(None))
  }

  ghost predicate Finishes(s: Sys, r: Rid, response: Response, s': Sys)
    requires r in s.reqs
  {
    var pc := s.reqs[r].pc;
    && pc.Running?
    && s' == Goto(s, r, if Success(response) then Caching(pc.lockedAt, response) else Answered)
               .(runs := s.runs + [HandlerRun(s.reqs[r].ask, response)])
  }

  ghost predicate SetsEx(c: Config, s: Sys, r: Rid, failed: bool, written: bool, s': Sys)
    requires r in s.reqs
  {
    var ask, pc := s.reqs[r].ask, s.reqs[r].pc;
    && pc.Caching?
    && var s1 := Goto(s, r, Answered);
       s' == if failed && !written then s1 else Written(s1, Key(ask), Completed(ask.hash, pc.response), c.cacheTtl)
  }

  ghost predicate Step(c: Config, s: Sys, a: Action, s': Sys) {
    match a
    case Tick(now) => s.now <= now && s' == s.(now := now)
    case Arrive(r, ask) => r !in s.reqs && s' == s.(reqs := s.reqs[r := Req(ask, Arrived)])
    case SetNx(r, failed, written) => r in s.reqs && SetsNx(c, s, r, failed, written, s')
    case Get(r, failed) => r in s.reqs && Gets(s, r, failed, s')
    case Finish(r, response) => r in s.reqs && Finishes(s, r, response, s')
    case SetEx(r, failed, written) => r in s.reqs && SetsEx(c, s, r, failed, written, s')
    case Crash(r) => r in s.reqs && s' == Goto(s, r, Answered)
    case Corrupt(key) => key in s.store && s' == s.(store := s.store[key := s.store[key].(value := NotJson)])
  }

  // A run of the system.
  datatype Trace = Trace(states: seq<Sys>, actions: seq<Action>)

  ghost predicate IsTrace(c: Config, t: Trace) {
    && |t.states| == |t.actions| + 1
    && t.states[0].store == map[] && t.states[0].reqs == map[] && t.states[0].runs == []
    && forall i | 0 <= i < |t.actions| :: Step(c, t.states[i], t.actions[i], t.states[i + 1])
  }

  // ---------- Replays are of real runs, whatever fails ----------

  /** Some earlier run under this key and body hash ended with this success. */
  ghost predicate Happened(runs: seq<HandlerRun>, key: string, hash: Hash, response: Response) {
    exists i :: 0 <= i < |runs| && Key(runs[i].ask) == key && runs[i].ask.hash == hash && runs[i].response == response
                && Success(response)
  }

  ghost predicate Sound(s: Sys) {
    && (forall k | k in s.store && s.store[k].value.Completed? ::
          Happened(s.runs, k, s.store[k].value.hash, s.store[k].value.response))
    && (forall r | r in s.reqs && s.reqs[r].pc.Caching? ::
          Happened(s.runs, Key(s.reqs[r].ask), s.reqs[r].ask.hash, s.reqs[r].pc.response))
  }

  lemma StillHappened(runs: seq<HandlerRun>, more: seq<HandlerRun>, key: string, hash: Hash, response: Response)
    requires Happened(runs, key, hash, response)
    ensures Happened(runs + more, key, hash, response)
  {
    var i :| 0 <= i < |runs| && Key(runs[i].ask) == key && runs[i].ask.hash == hash && runs[i].response == response
             && Success(response);
    assert (runs + more)[i] == runs[i];
  }

  lemma StepKeepsSound(c: Config, s: Sys, a: Action, s': Sys)
    requires Sound(s) && Step(c, s, a, s')
    ensures Sound(s')
  {
    hide Key, Success, Live;
    if a.Finish? {
      FinishKeepsSound(s, a.r, a.response, s');
    } else {
      hide Happened;
    }
  }

  lemma FinishKeepsSound(s: Sys, r: Rid, response: Response, s': Sys)
    requires Sound(s) && r in s.reqs && Finishes(s, r, response, s')
    ensures Sound(s')
  {
    var last := HandlerRun(s.reqs[r].ask, response);
    assert s'.runs[|s.runs|] == last;
    assert Success(response) ==> Happened(s'.runs, Key(last.ask), last.ask.hash, response);
    forall k, h, resp | Happened(s.runs, k, h, resp) ensures Happened(s'.runs, k, h, resp) {
      StillHappened(s.runs, [last], k, h, resp);
    }
    hide Happened, Key, Success;
  }

  lemma {:induction false} EveryStateIsSound(c: Config, t: Trace, i: nat)
    requires IsTrace(c, t) && i < |t.states|
    ensures Sound(t.states[i])
  {
    if i > 0 {
      EveryStateIsSound(c, t, i - 1);
      StepKeepsSound(c, t.states[i - 1], t.actions[i - 1], t.states[i]);
    }
  }

  /** This step answers a request with a stored response. */
  ghost predicate Replays(s: Sys, a: Action, response: Response) {
    && a.Get? && !a.failed && a.r in s.reqs && s.reqs[a.r].pc.Refused?
    && Live(s.store, Key(s.reqs[a.r].ask), s.now)
    && Resolve(s.store[Key(s.reqs[a.r].ask)].value, s.reqs[a.r].ask.hash) == Replay(response)
  }

  /** Whatever fails or expires: a replayed response is one that a handler gave before, to the same body, under the
      same key, and so to the same subject, and it has a status from 200 to 299. */
  lemma ReplaysAreReal(c: Config, t: Trace, i: nat, response: Response)
    requires IsTrace(c, t) && i < |t.actions| && Replays(t.states[i], t.actions[i], response)
    requires forall r | r in t.states[i].reqs :: ':' !in t.states[i].reqs[r].ask.subject
    requires forall j | 0 <= j < |t.states[i].runs| :: ':' !in t.states[i].runs[j].ask.subject
    ensures var ask := t.states[i].reqs[t.actions[i].r].ask;
      exists j :: 0 <= j < |t.states[i].runs|
        && var run := t.states[i].runs[j];
           && run.response == response && 200 <= response.status < 300 && run.ask.hash == ask.hash
           && run.ask.subject == ask.subject
           && run.ask.path + ":" + run.ask.clientKey == ask.path + ":" + ask.clientKey
  {
    var s := t.states[i];
    EveryStateIsSound(c, t, i);
    var ask := s.reqs[t.actions[i].r].ask;
    var j :| 0 <= j < |s.runs| && Key(s.runs[j].ask) == Key(ask) && s.runs[j].ask.hash == ask.hash
             && s.runs[j].response == response && Success(response);
    var was := s.runs[j].ask;
    KeysMeetExactlyWhen(was.subject, was.path, was.clientKey, ask.subject, ask.path, ask.clientKey);
  }

  // ---------- At most once, while nothing fails ----------

  predicate Busy(pc: Pc) { pc.Running? || pc.Caching? }

  ghost predicate Asks(s: Sys, r: Rid, key: string) { r in s.reqs && Key(s.reqs[r].ask) == key }

  /** For this key, the store answers, and the entry a refused request looks up has not expired since. */
  ghost predicate HealthyStep(s: Sys, a: Action, key: string) {
    match a
    case SetNx(r, failed, _) => Asks(s, r, key) ==> !failed
    case SetEx(r, failed, _) => Asks(s, r, key) ==> !failed
    case Get(r, failed) => Asks(s, r, key) ==> !failed && Live(s.store, key, s.now)
    case Corrupt(k) => k != key
    case _ => true
  }

  /** No handler for this key outlives its lock. */
  ghost predicate WithinLock(c: Config, s: Sys, key: string) {
    forall r | Asks(s, r, key) && Busy(s.reqs[r].pc) && s.reqs[r].pc.lockedAt.Some? ::
      s.now < s.reqs[r].pc.lockedAt.value + c.lockTtl
  }

  /** Both, for this key and the first n steps; whatever happens to other keys, or later. */
  ghost predicate Healthy(c: Config, t: Trace, key: string, n: nat)
    requires n <= |t.actions| < |t.states|
  {
    forall i | 0 <= i < n :: HealthyStep(t.states[i], t.actions[i], key) && WithinLock(c, t.states[i], key)
  }

  /** A busy request holds the lock of its key. */
  ghost predicate Locked(c: Config, s: Sys, r: Rid)
    requires r in s.reqs
  {
    var pc := s.reqs[r].pc;
    Busy(pc) ==>
      && pc.lockedAt.Some? && Key(s.reqs[r].ask) in s.store
      && s.store[Key(s.reqs[r].ask)] == Entry(InProgress(s.reqs[r].ask.hash), pc.lockedAt.value + c.lockTtl)
  }

  ghost predicate Alone(s: Sys, q: Rid, r: Rid)
    requires q in s.reqs && r in s.reqs
  {
    !(Busy(s.reqs[q].pc) && Busy(s.reqs[r].pc))
  }

  ghost predicate Exclusive(c: Config, s: Sys, key: string) {
    && (forall r | Asks(s, r, key) :: Locked(c, s, r))
    && (forall q, r | Asks(s, q, key) && Asks(s, r, key) && q != r :: Alone(s, q, r))
  }

  lemma StepKeepsLocked(c: Config, s: Sys, a: Action, s': Sys, key: string, r: Rid)
    requires Exclusive(c, s, key) && WithinLock(c, s, key) && Step(c, s, a, s') && HealthyStep(s, a, key)
    requires Asks(s', r, key)
    ensures Locked(c, s', r)
  {
    hide Key;
    if r in s.reqs {
      assert Asks(s, r, key) && Locked(c, s, r);
      if a.SetEx? && r != a.r && Asks(s, a.r, key) { assert Alone(s, r, a.r); }
    }
  }

  lemma StepKeepsAlone(c: Config, s: Sys, a: Action, s': Sys, key: string, q: Rid, r: Rid)
    requires Exclusive(c, s, key) && WithinLock(c, s, key) && Step(c, s, a, s') && HealthyStep(s, a, key)
    requires Asks(s', q, key) && Asks(s', r, key) && q != r
    ensures Alone(s', q, r)
  {
    hide Key;
    if q in s.reqs && r in s.reqs {
      assert Asks(s, q, key) && Asks(s, r, key) && Alone(s, q, r) && Locked(c, s, q) && Locked(c, s, r);
    }
  }

  lemma StepKeepsExclusive(c: Config, s: Sys, a: Action, s': Sys, key: string)
    requires Exclusive(c, s, key) && WithinLock(c, s, key) && Step(c, s, a, s') && HealthyStep(s, a, key)
    ensures Exclusive(c, s', key)
  {
    hide Key, WithinLock, Step, HealthyStep, Locked, Alone;
    forall r | Asks(s', r, key) ensures Locked(c, s', r) { StepKeepsLocked(c, s, a, s', key, r); }
    forall q, r | Asks(s', q, key) && Asks(s', r, key) && q != r ensures Alone(s', q, r) {
      StepKeepsAlone(c, s, a, s', key, q, r);
    }
  }

  lemma {:induction false} EveryStateIsExclusive(c: Config, t: Trace, key: string, i: nat)
    requires IsTrace(c, t) && i < |t.states| && Healthy(c, t, key, i)
    ensures Exclusive(c, t.states[i], key)
  {
    hide Step, Exclusive, HealthyStep, WithinLock;
    if i > 0 {
      EveryStateIsExclusive(c, t, key, i - 1);
      StepKeepsExclusive(c, t.states[i - 1], t.actions[i - 1], t.states[i], key);
    } else {
      assert Exclusive(c, t.states[0], key) by { NobodyYet(c, t.states[0], key); }
    }
  }

  lemma NobodyYet(c: Config, s: Sys, key: string)
    requires s.reqs == map[]
    ensures Exclusive(c, s, key)
  {
  }

  /** Handler runs under one key never overlap. */
  lemma RunsNeverOverlap(c: Config, t: Trace, i: nat, q: Rid, r: Rid)
    requires IsTrace(c, t) && i < |t.states| && q in t.states[i].reqs && r in t.states[i].reqs && q != r
    requires Healthy(c, t, Key(t.states[i].reqs[q].ask), i)
    requires Busy(t.states[i].reqs[q].pc) && Busy(t.states[i].reqs[r].pc)
    ensures Key(t.states[i].reqs[q].ask) != Key(t.states[i].reqs[r].ask)
  {
    var s := t.states[i];
    var key := Key(s.reqs[q].ask);
    EveryStateIsExclusive(c, t, key, i);
    assert !Alone(s, q, r) && Asks(s, q, key);
    assert Asks(s, r, key) <==> Key(s.reqs[r].ask) == key;
  }

  /** A success stays cached under its key, and no handler runs for the key. */
  ghost predicate Settled(s: Sys, key: string, entry: Entry) {
    && key in s.store && s.store[key] == entry
    && forall r | Asks(s, r, key) :: !Busy(s.reqs[r].pc)
  }

  lemma StepKeepsSettled(c: Config, s: Sys, a: Action, s': Sys, key: string, entry: Entry)
    requires Settled(s, key, entry) && s.now < entry.expires
    requires Step(c, s, a, s') && HealthyStep(s, a, key)
    ensures Settled(s', key, entry)
  {
    hide Key;
    forall r | Asks(s', r, key) ensures !Busy(s'.reqs[r].pc) {
      if r in s.reqs { assert Asks(s, r, key); }
    }
  }

  lemma SuccessSettles(c: Config, s: Sys, a: Action, s': Sys)
    requires a.SetEx? && a.r in s.reqs && Step(c, s, a, s')
    requires HealthyStep(s, a, Key(s.reqs[a.r].ask)) && Exclusive(c, s, Key(s.reqs[a.r].ask))
    ensures s.reqs[a.r].pc.Caching?
    ensures var q := s.reqs[a.r];
      Settled(s', Key(q.ask), Entry(Completed(q.ask.hash, q.pc.response), s.now + c.cacheTtl))
  {
    hide Key;
    var key := Key(s.reqs[a.r].ask);
    assert Asks(s, a.r, key);
    forall r | Asks(s', r, key) ensures !Busy(s'.reqs[r].pc) {
      if r != a.r { assert Asks(s, r, key) && Alone(s, r, a.r); }
    }
  }

  lemma {:induction false} StaysSettled(c: Config, t: Trace, key: string, entry: Entry, i: nat, j: nat)
    requires IsTrace(c, t) && i <= j < |t.states| && Settled(t.states[i], key, entry)
    requires Healthy(c, t, key, j) && t.states[j].now < entry.expires
    ensures Settled(t.states[j], key, entry)
    decreases j
  {
    hide Step, HealthyStep, WithinLock, Settled;
    if i < j {
      TimeMoves(c, t, j - 1);
      StaysSettled(c, t, key, entry, i, j - 1);
      StepKeepsSettled(c, t.states[j - 1], t.actions[j - 1], t.states[j], key, entry);
    }
  }

  lemma TimeMoves(c: Config, t: Trace, i: nat)
    requires IsTrace(c, t) && i < |t.actions|
    ensures t.states[i].now <= t.states[i + 1].now
  {
    assert Step(c, t.states[i], t.actions[i], t.states[i + 1]);
  }

  /** What the end of a handler decides: a response with a status from 200 to 299 is to be cached, and any other is
      answered at once. */
  lemma EndOfHandler(c: Config, s: Sys, r: Rid, response: Response, s': Sys)
    requires Step(c, s, Finish(r, response), s')
    ensures r in s.reqs && r in s'.reqs && s'.reqs[r].ask == s.reqs[r].ask && s.reqs[r].pc.Running?
    ensures s'.reqs[r].pc
         == if 200 <= response.status < 300 then Caching(s.reqs[r].pc.lockedAt, response) else Answered
    ensures s'.store == s.store && s'.runs == s.runs + [HandlerRun(s.reqs[r].ask, response)]
  {
  }

  lemma KeepsWaiting(c: Config, s: Sys, a: Action, s': Sys, r: Rid, response: Response)
    requires Step(c, s, a, s') && r in s.reqs
    requires var pc := s.reqs[r].pc; (pc.Caching? && pc.response == response) || pc.Answered?
    ensures r in s'.reqs && s'.reqs[r].ask == s.reqs[r].ask
    ensures var pc := s'.reqs[r].pc; (pc.Caching? && pc.response == response) || pc.Answered?
  {
    hide Key;
  }

  lemma {:induction false} WaitsOrIsDone(c: Config, t: Trace, h: nat, m: nat, r: Rid, response: Response)
    requires IsTrace(c, t) && h < m < |t.states| && t.actions[h] == Finish(r, response)
    ensures r in t.states[h].reqs && r in t.states[m].reqs && t.states[m].reqs[r].ask == t.states[h].reqs[r].ask
    ensures var pc := t.states[m].reqs[r].pc; (pc.Caching? && pc.response == response) || pc.Answered?
    decreases m
  {
    assert Step(c, t.states[m - 1], t.actions[m - 1], t.states[m]);
    hide Step;
    if m > h + 1 {
      WaitsOrIsDone(c, t, h, m - 1, r, response);
      KeepsWaiting(c, t.states[m - 1], t.actions[m - 1], t.states[m], r, response);
    } else {
      EndOfHandler(c, t.states[h], r, response, t.states[m]);
    }
  }

  /** A handler that ends with a status from 200 to 299 has its response written, and from then on no handler runs
      for its key until the cache lifetime is over. */
  lemma NoRunAfterSuccess(c: Config, t: Trace, h: nat, i: nat, j: nat, r: Rid, response: Response)
    requires IsTrace(c, t) && h < i < j < |t.states| && t.actions[h] == Finish(r, response)
    requires 200 <= response.status < 300 && r in t.states[h].reqs
    requires t.actions[i].SetEx? && t.actions[i].r == r
    requires Healthy(c, t, Key(t.states[h].reqs[r].ask), j)
    requires t.states[j].now < t.states[i].now + c.cacheTtl
    ensures r in t.states[h + 1].reqs
    ensures t.states[h].reqs[r].pc.Running?
            && t.states[h + 1].reqs[r].pc == Caching(t.states[h].reqs[r].pc.lockedAt, response)
    ensures var ask := t.states[h].reqs[r].ask;
      Settled(t.states[j], Key(ask), Entry(Completed(ask.hash, response), t.states[i].now + c.cacheTtl))
  {
    WaitsOrIsDone(c, t, h, i, r, response);
    EndOfHandler(c, t.states[h], r, response, t.states[h + 1]);
    hide Step, Key, HealthyStep, WithinLock, Settled, Exclusive;
    var ask := t.states[h].reqs[r].ask;
    EveryStateIsExclusive(c, t, Key(ask), i);
    SuccessSettles(c, t.states[i], t.actions[i], t.states[i + 1]);
    StaysSettled(c, t, Key(ask), Entry(Completed(ask.hash, response), t.states[i].now + c.cacheTtl), i + 1, j);
  }

  /** In that time the same request again is answered with the same response, if its look-up does not fail. */
  lemma RetryGetsTheResponse(c: Config, t: Trace, h: nat, i: nat, j: nat, r: Rid, response: Response)
    requires IsTrace(c, t) && h < i < j < |t.actions| && t.actions[h] == Finish(r, response)
    requires 200 <= response.status < 300 && r in t.states[h].reqs
    requires t.actions[i].SetEx? && t.actions[i].r == r && t.actions[j].Get? && !t.actions[j].failed
    requires Healthy(c, t, Key(t.states[h].reqs[r].ask), j)
    requires t.states[j].now < t.states[i].now + c.cacheTtl
    requires t.actions[j].r in t.states[j].reqs && t.states[j].reqs[t.actions[j].r].pc.Refused?
    requires t.states[j].reqs[t.actions[j].r].ask == t.states[h].reqs[r].ask
    ensures Replays(t.states[j], t.actions[j], response)
  {
    NoRunAfterSuccess(c, t, h, i, j, r, response);
    hide Step, Key, Healthy;
  }

  /** A handler that ends with any other status leaves its lock behind: no handler runs for its key until the lock
      runs out. */
  lemma NoRunWhileLocked(c: Config, t: Trace, h: nat, j: nat, r: Rid, response: Response)
    requires IsTrace(c, t) && h < j < |t.states| && t.actions[h] == Finish(r, response)
    requires response.status < 200 || response.status >= 300
    requires r in t.states[h].reqs && Healthy(c, t, Key(t.states[h].reqs[r].ask), j)
    requires t.states[h].reqs[r].pc.Running? && t.states[h].reqs[r].pc.lockedAt.Some? ==>
      t.states[j].now < t.states[h].reqs[r].pc.lockedAt.value + c.lockTtl
    ensures t.states[h].reqs[r].pc.Running? && t.states[h].reqs[r].pc.lockedAt.Some?
    ensures var ask, lockedAt := t.states[h].reqs[r].ask, t.states[h].reqs[r].pc.lockedAt.value;
      Settled(t.states[j], Key(ask), Entry(InProgress(ask.hash), lockedAt + c.lockTtl))
  {
    var ask := t.states[h].reqs[r].ask;
    EveryStateIsExclusive(c, t, Key(ask), h);
    hide Step, Key, HealthyStep, WithinLock, Settled, Exclusive;
    FailureSettles(c, t.states[h], r, response, t.states[h + 1]);
    var entry := Entry(InProgress(ask.hash), t.states[h].reqs[r].pc.lockedAt.value + c.lockTtl);
    StaysSettled(c, t, Key(ask), entry, h + 1, j);
  }

  lemma FailureSettles(c: Config, s: Sys, r: Rid, response: Response, s': Sys)
    requires r in s.reqs && Step(c, s, Finish(r, response), s') && !(200 <= response.status < 300)
    requires Exclusive(c, s, Key(s.reqs[r].ask))
    ensures s.reqs[r].pc.Running? && s.reqs[r].pc.lockedAt.Some?
    ensures Settled(s', Key(s.reqs[r].ask),
                    Entry(InProgress(s.reqs[r].ask.hash), s.reqs[r].pc.lockedAt.value + c.lockTtl))
  {
    hide Key;
    var key := Key(s.reqs[r].ask);
    assert Asks(s, r, key) && Locked(c, s, r);
    forall q | Asks(s', q, key) ensures !Busy(s'.reqs[q].pc) {
      if q != r { assert Asks(s, q, key) && Alone(s, q, r); }
    }
  }

  /** In that time the same request again is told that the first one is in flight. */
  lemma RetryIsInFlight(c: Config, t: Trace, h: nat, j: nat, r: Rid, response: Response, q: Rid)
    requires IsTrace(c, t) && h < j < |t.actions| && t.actions[h] == Finish(r, response)
    requires response.status < 200 || response.status >= 300
    requires r in t.states[h].reqs && Healthy(c, t, Key(t.states[h].reqs[r].ask), j)
    requires t.states[h].reqs[r].pc.Running? && t.states[h].reqs[r].pc.lockedAt.Some? ==>
      t.states[j].now < t.states[h].reqs[r].pc.lockedAt.value + c.lockTtl
    requires t.actions[j] == Get(q, false) && q in t.states[j].reqs && t.states[j].reqs[q].pc.Refused?
    requires t.states[j].reqs[q].ask == t.states[h].reqs[r].ask
    ensures q in t.states[j + 1].reqs && t.states[j + 1].reqs[q].pc == Answered
    ensures var ask := t.states[j].reqs[q].ask;
      Key(ask) in t.states[j].store && Resolve(t.states[j].store[Key(ask)].value, ask.hash) == InFlight
  {
    NoRunWhileLocked(c, t, h, j, r, response);
    assert Step(c, t.states[j], t.actions[j], t.states[j + 1]);
    hide Key, Healthy, IsTrace;
  }

  // ---------- A request that nobody interrupts ----------

  /** Step by step, with nothing in between, a request does what the middleware does in one go: it is stopped by a
      live entry, and otherwise runs, with its response cached if the status is from 200 to 299 and its lock left
      behind if not. */
  lemma UninterruptedRequest(c: Config, s: Sys, r: Rid, response: Response) returns (s1: Sys, s2: Sys, s3: Sys)
    requires r in s.reqs && s.reqs[r].pc.Arrived?
    ensures Step(c, s, SetNx(r, false, true), s1)
    ensures var ask := s.reqs[r].ask;
      if Key(ask) in s.store && s.now < s.store[Key(ask)].expires
      then Step(c, s1, Get(r, false), s2) && s2.reqs[r].pc == Answered && s2.store == s.store && s2.runs == s.runs
      else
        && Step(c, s1, Finish(r, response), s2) && s2.runs == s.runs + [HandlerRun(ask, response)]
        && (if 200 <= response.status < 300
            then Step(c, s2, SetEx(r, false, true), s3) && s3.reqs[r].pc == Answered && s3.runs == s2.runs
                 && s3.store == s.store[Key(ask) := Entry(Completed(ask.hash, response), s.now + c.cacheTtl)]
            else s2.reqs[r].pc == Answered
                 && s2.store == s.store[Key(ask) := Entry(InProgress(ask.hash), s.now + c.lockTtl)])
  {
    hide Key;
    var ask := s.reqs[r].ask;
    if Live(s.store, Key(ask), s.now) {
      s1 := Goto(s, r, Refused);
      s2 := Goto(s1, r, Answered);
      s3 := s2;
    } else {
      s1 := Written(Goto(s, r, Running(Some(s.now))), Key(ask), InProgress(ask.hash), c.lockTtl);
      s2 := Goto(s1, r, if Success(response) then Caching(Some(s.now), response) else Answered)
              .(runs := s.runs + [HandlerRun(ask, response)]);
      s3 := Written(Goto(s2, r, Answered), Key(ask), Completed(ask.hash, response), c.cacheTtl);
    }
  }

  // ---------- When runs overlap ----------

  /** Two handlers for the key run at once. */
  ghost predicate Overlapping(s: Sys, key: string) {
    exists q, r :: Asks(s, q, key) && Asks(s, r, key) && q != r && !Alone(s, q, r)
  }

  /** The step starts the handler of its request: set_nx went through, or the look-up gave nothing. */
  ghost predicate Starts(s: Sys, a: Action, key: string) {
    match a
    case SetNx(r, failed, _) => Asks(s, r, key) && s.reqs[r].pc.Arrived? && !failed && !Live(s.store, key, s.now)
    case Get(r, failed) => Asks(s, r, key) && s.reqs[r].pc.Refused? && (failed || !Live(s.store, key, s.now))
    case _ => false
  }

  /** What lets it start while q runs: its look-up failed, q runs without the lock, or q has outlived it. */
  ghost predicate Excused(c: Config, s: Sys, a: Action, q: Rid) {
    || (a.Get? && a.failed)
    || (q in s.reqs
        && var pc := s.reqs[q].pc;
           Busy(pc) && (pc.lockedAt.None? || pc.lockedAt.value + c.lockTtl <= s.now))
  }

  /** The step starts a handler for the key while that of request q runs. */
  ghost predicate StartsBeside(s: Sys, a: Action, key: string, q: Rid) {
    Starts(s, a, key) && Asks(s, q, key) && q != a.r && Busy(s.reqs[q].pc)
  }

  /** The entry that request r wrote as its lock is there until it runs out. */
  ghost predicate Lasts(c: Config, s: Sys, key: string, r: Rid)
    requires r in s.reqs
  {
    var pc := s.reqs[r].pc;
    Busy(pc) && pc.lockedAt.Some? && s.now < pc.lockedAt.value + c.lockTtl ==>
      key in s.store && s.store[key].expires == pc.lockedAt.value + c.lockTtl
  }

  lemma StepKeepsLock(c: Config, s: Sys, a: Action, s': Sys, key: string, r: Rid)
    requires Step(c, s, a, s') && !Overlapping(s, key) && Asks(s', r, key)
    requires forall q | Asks(s, q, key) :: Lasts(c, s, key, q)
    ensures Lasts(c, s', key, r)
  {
    hide Key;
    if r in s.reqs {
      assert Asks(s, r, key) && Lasts(c, s, key, r);
      if a.SetEx? && r != a.r && Asks(s, a.r, key) { assert Alone(s, a.r, r); }
    }
  }

  lemma {:induction false} LocksLast(c: Config, t: Trace, key: string, i: nat, r: Rid)
    requires IsTrace(c, t) && i < |t.states| && Asks(t.states[i], r, key)
    requires forall k | 0 <= k < i :: !Overlapping(t.states[k], key)
    ensures Lasts(c, t.states[i], key, r)
  {
    hide Step, Lasts, Overlapping, Key;
    if i > 0 {
      var s := t.states[i - 1];
      forall q | Asks(s, q, key) ensures Lasts(c, s, key, q) { LocksLast(c, t, key, i - 1, q); }
      StepKeepsLock(c, s, t.actions[i - 1], t.states[i], key, r);
    }
  }

  lemma StartingOverlaps(c: Config, s: Sys, a: Action, s': Sys, key: string, q: Rid)
    requires Step(c, s, a, s') && StartsBeside(s, a, key, q)
    ensures Overlapping(s', key)
  {
    hide Key;
    assert Asks(s', q, key) && Asks(s', a.r, key) && !Alone(s', q, a.r);
  }

  lemma OverlapStarts(c: Config, s: Sys, a: Action, s': Sys, key: string) returns (q: Rid)
    requires Step(c, s, a, s') && !Overlapping(s, key) && Overlapping(s', key)
    ensures StartsBeside(s, a, key, q)
  {
    hide Key;
    var x: Rid, y: Rid :| Asks(s', x, key) && Asks(s', y, key) && x != y && !Alone(s', x, y);
    assert x in s.reqs ==> Asks(s, x, key);
    assert y in s.reqs ==> Asks(s, y, key);
    assert Alone(s, x, y);
    q := if Busy(s.reqs[x].pc) then x else y;
  }

  /** In every trace two handlers for a key run at once at some time up to step n if and only if some step
      before starts one while another runs, and its own look-up failed, or the other runs without the lock,
      or has outlived its lock. */
  lemma OverlapExactlyWhen(c: Config, t: Trace, key: string, n: nat)
    requires IsTrace(c, t) && n < |t.states|
    ensures (exists i :: 0 <= i <= n && Overlapping(t.states[i], key)) <==>
            (exists i, q :: 0 <= i < n && StartsBeside(t.states[i], t.actions[i], key, q)
                            && Excused(c, t.states[i], t.actions[i], q))
  {
    hide Step, Overlapping, StartsBeside, Excused, Key;
    if i :| 0 <= i <= n && Overlapping(t.states[i], key) {
      var k := FirstOverlap(c, t, key, i);
      var q := OverlapStarts(c, t.states[k], t.actions[k], t.states[k + 1], key);
      StarterIsExcused(c, t, key, k, q);
    }
    if i: nat, q: Rid :| 0 <= i < n && StartsBeside(t.states[i], t.actions[i], key, q)
                         && Excused(c, t.states[i], t.actions[i], q) {
      StartingOverlaps(c, t.states[i], t.actions[i], t.states[i + 1], key, q);
    }
  }

  lemma {:induction false} FirstOverlap(c: Config, t: Trace, key: string, i: nat) returns (k: nat)
    requires IsTrace(c, t) && i < |t.states| && Overlapping(t.states[i], key)
    ensures k < i && Overlapping(t.states[k + 1], key) && forall m | 0 <= m <= k :: !Overlapping(t.states[m], key)
  {
    hide Step, Overlapping;
    if j :| 0 <= j < i && Overlapping(t.states[j], key) {
      k := FirstOverlap(c, t, key, j);
    } else {
      assert i != 0 by { if i == 0 { NoneAtFirst(c, t, key); } }
      k := i - 1;
    }
  }

  lemma NoneAtFirst(c: Config, t: Trace, key: string)
    requires IsTrace(c, t)
    ensures !Overlapping(t.states[0], key)
  {
    hide Step;
  }

  lemma StarterIsExcused(c: Config, t: Trace, key: string, i: nat, q: Rid)
    requires IsTrace(c, t) && i < |t.actions| && StartsBeside(t.states[i], t.actions[i], key, q)
    requires forall k | 0 <= k <= i :: !Overlapping(t.states[k], key)
    ensures Excused(c, t.states[i], t.actions[i], q)
  {
    hide Step, Key, Overlapping;
    LocksLast(c, t, key, i, q);
  }

  // ---------- What the last condition is for ----------

  /** A lock that expires between a refusal and the look-up lets two handlers run at once, although
      nothing fails and no handler outlives its lock. */
  function Overlap(): Trace {
    var ask := Ask("7", "/orders", "k", "h");
    var lock := map[Key(ask) := Entry(InProgress("h"), 30)];
    var bad := Response(500, "");
    var runs := [HandlerRun(ask, bad)];
    var s0 := Sys(0, map[], map[], []);
    var s1 := s0.(reqs := map[1 := Req(ask, Arrived)]);
    var s2 := s1.(reqs := map[1 := Req(ask, Running(Some(0)))], store := lock);
    var s3 := s2.(reqs := s2.reqs[2 := Req(ask, Arrived)]);
    var s4 := s3.(reqs := s3.reqs[2 := Req(ask, Refused)]);
    var s5 := s4.(reqs := s4.reqs[1 := Req(ask, Answered)], runs := runs);
    var s6 := s5.(now := 30);
    var s7 := s6.(reqs := s6.reqs[2 := Req(ask, Running(None))]);
    var s8 := s7.(reqs := s7.reqs[3 := Req(ask, Arrived)]);
    var s9 := s8.(reqs := s8.reqs[3 := Req(ask, Running(Some(30)))],
                  store := map[Key(ask) := Entry(InProgress("h"), 60)]);
    Trace([s0, s1, s2, s3, s4, s5, s6, s7, s8, s9],
          [Arrive(1, ask), SetNx(1, false, true), Arrive(2, ask), SetNx(2, false, false), Finish(1, bad), Tick(30),
           Get(2, false), Arrive(3, ask), SetNx(3, false, true)])
  }

  lemma OverlapBegins()
    ensures forall i | 0 <= i < 5 :: Step(Config(30, 86400), Overlap().states[i], Overlap().actions[i],
        Overlap().states[i + 1])
  {
    hide Key;
  }

  lemma OverlapEnds()
    ensures forall i | 5 <= i < 9 :: Step(Config(30, 86400), Overlap().states[i], Overlap().actions[i],
        Overlap().states[i + 1])
  {
    hide Key;
  }

  lemma ExpiryInBetweenOverlaps()
    ensures var c, t := Config(30, 86400), Overlap();
      && IsTrace(c, t)
      && var key := Key(Ask("7", "/orders", "k", "h"));
      && (forall i | 0 <= i < |t.states| :: WithinLock(c, t.states[i], key))
      && (forall i | 0 <= i < |t.actions| && i != 6 :: HealthyStep(t.states[i], t.actions[i], key))
      && Busy(t.states[9].reqs[2].pc) && Busy(t.states[9].reqs[3].pc)
      && Key(t.states[9].reqs[2].ask) == Key(t.states[9].reqs[3].ask)
  {
    OverlapBegins();
    OverlapEnds();
    hide Key, Step;
  }
}
