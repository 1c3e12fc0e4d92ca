/** Login attempts that overlap: an attempt asks the guard first and reports its failure later, and in
    between others may ask. `pre_check` and `record_failure` themselves are taken as one step each. */
module LoginGuardConcurrent {
  import opened Wrappers
  import opened LoginGuard

  type Pid = nat

  datatype Open = Open(attempt: Attempt, outcome: Outcome)

  datatype Sys = Sys(keys: Keys, open: map<Pid, Open>)

  datatype Event =
    | Check(p: Pid, attempt: Attempt)     // the guard's decision, and the password if it comes to that
    | Finish(p: Pid, now: nat)            // the failure counted, or the user's counter cleared

  // What is limited: guesses for a user, those of them without a solved captcha, guesses from an address.
  datatype Key = ByUser(user: string) | Unsolved(user: string) | ByIp(ip: string)

  function Time(e: Event): nat { if e.Check? then e.attempt.now else e.now }

  predicate Possible(s: Sys, e: Event) { if e.Check? then e.p !in s.open else e.p in s.open }

  function Next(c: Config, s: Sys, e: Event): Sys
    requires Possible(s, e)
  {
    match e
    case Check(p, a) =>
      var o := OutcomeOf(c, s.keys, a);
      if o.RateLimited? || o.CaptchaRequired? then s else s.(open := s.open[p := Open(a, o)])
    case Finish(p, now) =>
      var x := s.open[p];
      Sys(if x.outcome.LoggedIn? then AfterSuccess(s.keys, x.attempt.user)
          else AfterFailure(c, s.keys, now, x.attempt.user, x.attempt.ip),
          s.open - {p})
  }

  predicate Of(key: Key, a: Attempt) {
    match key
    case ByUser(user) => a.user == user
    case Unsolved(user) => a.user == user && !a.captchaOk
    case ByIp(ip) => a.ip == Some(ip)
  }

  function Limit(c: Config, key: Key): nat {
    match key
    case ByUser(_) => c.lockAt
    case Unsolved(_) => c.captchaAt
    case ByIp(_) => c.ipLimit
  }

  predicate IsGuess(c: Config, s: Sys, e: Event, key: Key) {
    e.Check? && Of(key, e.attempt) && OutcomeOf(c, s.keys, e.attempt).WrongPassword?
  }

  /** Wrong passwords that are checked for the key. */
  ghost function Guesses(c: Config, s: Sys, events: seq<Event>, key: Key): nat
    decreases events
  {
    if events == [] || !Possible(s, events[0]) then 0
    else (if IsGuess(c, s, events[0], key) then 1 else 0) + Guesses(c, Next(c, s, events[0]), events[1..], key)
  }

  /** Guesses that are checked and not yet counted. */
  function Uncounted(s: Sys, key: Key): set<Pid> {
    set p | p in s.open && Of(key, s.open[p].attempt) && s.open[p].outcome.WrongPassword?
  }

  /** The events follow each other, with never more than m guesses for the key uncounted, and without a
      login of the user if the key is about a user. */
  ghost predicate Runs(c: Config, s: Sys, events: seq<Event>, key: Key, m: nat)
    decreases events
  {
    && |Uncounted(s, key)| <= m
    && (events != [] ==>
          && Possible(s, events[0])
          && (!key.ByIp? && events[0].Finish? ==>
                !(s.open[events[0].p].attempt.user == key.user && s.open[events[0].p].outcome.LoggedIn?))
          && Runs(c, Next(c, s, events[0]), events[1..], key, m))
  }

  ghost predicate Within(events: seq<Event>, from: nat, to: nat) {
    forall i | 0 <= i < |events| :: from <= Time(events[i]) <= to
  }

  /** After n counted failures since `from`. */
  ghost predicate Counted(c: Config, k: Keys, key: Key, from: nat, n: nat) {
    match key
    case ByUser(user) =>
      && (n > 0 ==> user in k.userFails && k.userFails[user].count >= n && Lasts(k.userFails[user], from + c.window))
      && (n >= c.lockAt > 0 ==> user in k.locks && k.locks[user] >= from + c.lockSeconds)
    case Unsolved(user) =>
      n > 0 ==> user in k.userFails && k.userFails[user].count >= n && Lasts(k.userFails[user], from + c.window)
    case ByIp(ip) =>
      n > 0 ==> ip in k.ipFails && k.ipFails[ip].count >= n && Lasts(k.ipFails[ip], from + c.window)
  }

  ghost predicate ShortSpan(c: Config, key: Key, from: nat, to: nat) {
    && to < from + c.window && Limit(c, key) > 0
    && (key.ByUser? ==> to < from + c.lockSeconds)
    && (key.ByIp? ==> key.ip != "")
  }

  lemma FinishCounts(c: Config, s: Sys, e: Event, key: Key, from: nat, to: nat, n: nat)
    requires ShortSpan(c, key, from, to) && e.Finish? && Possible(s, e) && from <= e.now <= to
    requires !key.ByIp? ==> !(s.open[e.p].attempt.user == key.user && s.open[e.p].outcome.LoggedIn?)
    requires Counted(c, s.keys, key, from, n)
    ensures Counted(c, Next(c, s, e).keys, key, from, if e.p in Uncounted(s, key) then n + 1 else n)
    ensures Uncounted(Next(c, s, e), key) == Uncounted(s, key) - {e.p} && !IsGuess(c, s, e, key)
  {
  }

  lemma FullIsShut(c: Config, s: Sys, e: Event, key: Key, from: nat, to: nat, n: nat)
    requires ShortSpan(c, key, from, to) && e.Check? && from <= e.attempt.now <= to
    requires Counted(c, s.keys, key, from, n) && n >= Limit(c, key)
    ensures !IsGuess(c, s, e, key)
  {
  }

  lemma CheckOpens(c: Config, s: Sys, e: Event, key: Key)
    requires e.Check? && Possible(s, e)
    ensures Next(c, s, e).keys == s.keys
    ensures Uncounted(Next(c, s, e), key) == Uncounted(s, key) + if IsGuess(c, s, e, key) then {e.p} else {}
    ensures e.p !in Uncounted(s, key)
  {
  }

  lemma {:induction false} GuessesFrom(c: Config, s: Sys, events: seq<Event>, key: Key, m: nat, from: nat, to: nat,
      n: nat)
    requires ShortSpan(c, key, from, to) && Within(events, from, to) && Runs(c, s, events, key, m)
    requires Counted(c, s.keys, key, from, n) && n + |Uncounted(s, key)| <= Limit(c, key) + m - 1
    ensures n + |Uncounted(s, key)| + Guesses(c, s, events, key) <= Limit(c, key) + m - 1
    decreases events
  {
    hide Next, Of, OutcomeOf, Uncounted, Counted, ShortSpan, IsGuess;
    if events != [] {
      var e, s' := events[0], Next(c, s, events[0]);
      assert from <= Time(e) <= to && Within(events[1..], from, to);
      var n' := n;
      if e.Check? {
        CheckOpens(c, s, e, key);
        if n >= Limit(c, key) { FullIsShut(c, s, e, key, from, to, n); }
      } else {
        FinishCounts(c, s, e, key, from, to, n);
        if e.p in Uncounted(s, key) { n' := n + 1; }
      }
      assert n' + |Uncounted(s', key)| == n + |Uncounted(s, key)| + if IsGuess(c, s, e, key) then 1 else 0;
      GuessesFrom(c, s', events[1..], key, m, from, to, n');
    }
  }

  /** From any state on, in a span shorter than the counting window and the lock: if never more than m
      checked guesses for a user are still to be counted, then at most lockAt + m - 1 wrong passwords are
      checked for the user, unless the user logs in; and likewise without solved captchas with captchaAt, and for an
      address with ipLimit. */
  lemma OverlappingGuessesAreBounded(c: Config, s: Sys, events: seq<Event>, key: Key, m: nat, from: nat, to: nat)
    requires ShortSpan(c, key, from, to) && Within(events, from, to) && Runs(c, s, events, key, m) && m > 0
    ensures Guesses(c, s, events, key) <= Limit(c, key) + m - 1
  {
    GuessesFrom(c, s, events, key, m, from, to, 0);
  }

  /** An attempt that nobody interrupts does what the guard does in one go. */
  lemma UninterruptedAttempt(c: Config, s: Sys, p: Pid, a: Attempt)
    requires p !in s.open
    ensures var s1 := Next(c, s, Check(p, a));
      if OutcomeOf(c, s.keys, a).RateLimited? || OutcomeOf(c, s.keys, a).CaptchaRequired? then s1 == s
      else Possible(s1, Finish(p, a.now)) && Next(c, s1, Finish(p, a.now)) == Sys(After(c, s.keys, a), s.open)
  {
    assert s.open[p := Open(a, OutcomeOf(c, s.keys, a))] - {p} == s.open;
  }

  // ---------- The bound is met ----------

  /** A wrong password for the user, from an unknown address, with any captcha solved. */
  function Wrong(user: string, now: nat): Attempt { Attempt(now, user, None, true, false) }

  function AtOnce(user: string, now: nat, p: Pid, n: nat): seq<Event>
    decreases n
  {
    if n == 0 then [] else [Check(p, Wrong(user, now))] + AtOnce(user, now, p + 1, n - 1)
  }

  /** n guesses one after the other, then m at once. */
  function Burst(user: string, now: nat, n: nat, m: nat): seq<Event> {
    if n == 0 then AtOnce(user, now, 0, m)
    else [Check(0, Wrong(user, now)), Finish(0, now)] + Burst(user, now, n - 1, m)
  }

  lemma {:induction false} AtOnceAll(c: Config, s: Sys, user: string, now: nat, p: Pid, n: nat, m: nat)
    requires !Locked(s.keys, user, now) && (forall q | q in s.open :: q < p) && |Uncounted(s, ByUser(user))| + n <= m
    ensures Runs(c, s, AtOnce(user, now, p, n), ByUser(user), m)
    ensures Guesses(c, s, AtOnce(user, now, p, n), ByUser(user)) == n
    decreases n
  {
    if n > 0 {
      var e := Check(p, Wrong(user, now));
      CheckOpens(c, s, e, ByUser(user));
      hide Uncounted;
      assert AtOnce(user, now, p, n)[1..] == AtOnce(user, now, p + 1, n - 1);
      AtOnceAll(c, Next(c, s, e), user, now, p + 1, n - 1, m);
    }
  }

  lemma OneGuess(c: Config, s: Sys, user: string, now: nat)
    requires c.window > 0 && s.open == map[] && !Locked(s.keys, user, now)
        && Count(s.keys.userFails, user, now) + 1 < c.lockAt
    ensures var e1, e2 := Check(0, Wrong(user, now)), Finish(0, now);
      && IsGuess(c, s, e1, ByUser(user)) && Possible(s, e1)
      && var s1 := Next(c, s, e1);
         && Possible(s1, e2) && !s1.open[0].outcome.LoggedIn? && Uncounted(s1, ByUser(user)) == {0}
         && var s2 := Next(c, s1, e2);
            && s2.open == map[] && !Locked(s2.keys, user, now)
            && Count(s2.keys.userFails, user, now) == Count(s.keys.userFails, user, now) + 1
  {
  }

  lemma {:induction false} BurstRuns(c: Config, s: Sys, user: string, now: nat, n: nat, m: nat)
    requires c.window > 0 && m > 0 && s.open == map[] && !Locked(s.keys, user, now)
    requires Count(s.keys.userFails, user, now) + n < c.lockAt
    ensures Runs(c, s, Burst(user, now, n, m), ByUser(user), m)
    ensures Guesses(c, s, Burst(user, now, n, m), ByUser(user)) == n + m
    decreases n
  {
    assert Uncounted(s, ByUser(user)) == {};
    if n == 0 {
      AtOnceAll(c, s, user, now, 0, m, m);
    } else {
      OneGuess(c, s, user, now);
      var e1, e2, rest := Check(0, Wrong(user, now)), Finish(0, now), Burst(user, now, n - 1, m);
      var s1 := Next(c, s, e1);
      BurstRuns(c, Next(c, s1, e2), user, now, n - 1, m);
      hide Next, IsGuess, Possible, Uncounted;
      assert Burst(user, now, n, m)[1..] == [e2] + rest && ([e2] + rest)[1..] == rest;
    }
  }

  /** With m guesses in flight the bound is met: lockAt - 1 in a row, then m at once. */
  lemma OverlappingGuessesReachTheBound(c: Config, user: string, now: nat, m: nat)
    requires c.window > 0 && c.lockAt > 0 && m > 0
    ensures var s, events := Sys(Keys(map[], map[], map[]), map[]), Burst(user, now, c.lockAt - 1, m);
      Runs(c, s, events, ByUser(user), m) && Guesses(c, s, events, ByUser(user)) == c.lockAt + m - 1
  {
    BurstRuns(c, Sys(Keys(map[], map[], map[]), map[]), user, now, c.lockAt - 1, m);
  }
}
