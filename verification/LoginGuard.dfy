/** Limits on password guessing: failures are counted per user and per address in counters that expire
    after a quiet window, and too many lock the account for a while. */
module LoginGuard {
  import opened Wrappers

  datatype Config = Config(window: nat, captchaAt: nat, lockAt: nat, lockSeconds: nat, ipLimit: nat)

  // A counter without an expiry stays until it is given one.
  datatype Counter = Counter(count: nat, expires: Option<nat>)

  // The three kinds of keys; a lock is its time of expiry.
  datatype Keys = Keys(userFails: map<string, Counter>, ipFails: map<string, Counter>, locks: map<string, nat>)

  datatype Decision = Decision(requireCaptcha: bool, accountLocked: bool, ipRateLimited: bool)

  // A login request: an address may be unknown.
  datatype Attempt = Attempt(now: nat, user: string, ip: Option<string>, captchaOk: bool, passwordOk: bool)

  datatype Outcome = RateLimited | LockedOut | CaptchaRequired | WrongPassword | LoggedIn

  predicate HasIp(ip: Option<string>) { ip.Some? && ip.value != "" }

  predicate Alive(counters: map<string, Counter>, key: string, now: nat) {
    key in counters && (counters[key].expires.None? || now < counters[key].expires.value)
  }

  /** What reading a counter gives. */
  function Count(counters: map<string, Counter>, key: string, now: nat): nat {
    if Alive(counters, key, now) then counters[key].count else 0
  }

  predicate Locked(k: Keys, user: string, now: nat) { user in k.locks && now < k.locks[user] }

  function Bumped(counters: map<string, Counter>, key: string, now: nat, window: nat): map<string, Counter> {
    counters[key := Counter(Count(counters, key, now) + 1, Some(now + window))]
  }

  function AfterFailure(c: Config, k: Keys, now: nat, user: string, ip: Option<string>): Keys {
    var users := Bumped(k.userFails, user, now, c.window);
    Keys(users,
         if HasIp(ip) then Bumped(k.ipFails, ip.value, now, c.window) else k.ipFails,
         if users[user].count >= c.lockAt then k.locks[user := now + c.lockSeconds] else k.locks)
  }

  function AfterSuccess(k: Keys, user: string): Keys {
    k.(userFails := k.userFails - {user}, locks := k.locks - {user})
  }

  function Decide(c: Config, k: Keys, now: nat, user: string, ip: Option<string>): Decision {
    if Locked(k, user, now) then Decision(false, true, false)
    else if HasIp(ip) && Count(k.ipFails, ip.value, now) >= c.ipLimit then Decision(false, false, true)
    else Decision(Count(k.userFails, user, now) >= c.captchaAt, false, false)
  }

  function OutcomeBy(d: Decision, a: Attempt): Outcome {
    if d.ipRateLimited then RateLimited
    else if d.accountLocked then LockedOut
    else if d.requireCaptcha && !a.captchaOk then CaptchaRequired
    else if a.passwordOk then LoggedIn else WrongPassword
  }

  function OutcomeOf(c: Config, k: Keys, a: Attempt): Outcome { OutcomeBy(Decide(c, k, a.now, a.user, a.ip), a) }

  function After(c: Config, k: Keys, a: Attempt): Keys {
    match OutcomeOf(c, k, a)
    case LockedOut => AfterFailure(c, k, a.now, a.user, a.ip)
    case WrongPassword => AfterFailure(c, k, a.now, a.user, a.ip)
    case LoggedIn => AfterSuccess(k, a.user)
    case _ => k
  }

  // ---------- The commands of a failure ----------

  datatype Command = IncrUser | ExpireUser | IncrIp | ExpireIp | SetLock

  function Incr(counters: map<string, Counter>, key: string, now: nat): map<string, Counter> {
    if Alive(counters, key, now) then counters[key := counters[key].(count := counters[key].count + 1)]
    else counters[key := Counter(1, None)]
  }

  function Expire(counters: map<string, Counter>, key: string, now: nat, window: nat): map<string, Counter> {
    if Alive(counters, key, now) then counters[key := counters[key].(expires := Some(now + window))] else counters
  }

  function Execute(c: Config, k: Keys, now: nat, user: string, ip: string, command: Command): Keys {
    match command
    case IncrUser => k.(userFails := Incr(k.userFails, user, now))
    case ExpireUser => k.(userFails := Expire(k.userFails, user, now, c.window))
    case IncrIp => k.(ipFails := Incr(k.ipFails, ip, now))
    case ExpireIp => k.(ipFails := Expire(k.ipFails, ip, now, c.window))
    case SetLock => k.(locks := k.locks[user := now + c.lockSeconds])
  }

  function Executed(c: Config, k: Keys, now: nat, user: string, ip: string, commands: seq<Command>): Keys
    decreases |commands|
  {
    if commands == [] then k
    else Executed(c, Execute(c, k, now, user, ip, commands[0]), now, user, ip, commands[1..])
  }

  /** What `record_failure` sends to Redis, one after the other. */
  function FailureCommands(c: Config, k: Keys, now: nat, user: string, ip: Option<string>): seq<Command> {
    [IncrUser, ExpireUser] + (if HasIp(ip) then [IncrIp, ExpireIp] else [])
    + (if Count(k.userFails, user, now) + 1 >= c.lockAt then [SetLock] else [])
  }

  /** The keys when Redis executes the first n commands and then fails. */
  function Interrupted(c: Config, k: Keys, now: nat, user: string, ip: Option<string>, n: nat): Keys {
    var all := FailureCommands(c, k, now, user, ip);
    Executed(c, k, now, user, if ip.Some? then ip.value else "", if n < |all| then all[..n] else all)
  }

  lemma {:induction false} ExecutedThen(c: Config, k: Keys, now: nat, user: string, ip: string,
                                        first: seq<Command>, second: seq<Command>)
    ensures Executed(c, k, now, user, ip, first + second)
         == Executed(c, Executed(c, k, now, user, ip, first), now, user, ip, second)
    decreases |first|
  {
    if first == [] {
      assert first + second == second;
    } else {
      assert (first + second)[1..] == first[1..] + second;
      ExecutedThen(c, Execute(c, k, now, user, ip, first[0]), now, user, ip, first[1..], second);
    }
  }

  lemma Executes(c: Config, k: Keys, now: nat, user: string, ip: string)
    ensures Executed(c, k, now, user, ip, []) == k
    ensures forall x :: Executed(c, k, now, user, ip, [x]) == Execute(c, k, now, user, ip, x)
  {
  }

  lemma OneMore(c: Config, k: Keys, now: nat, user: string, ip: string, done: seq<Command>, x: Command)
    ensures Executed(c, k, now, user, ip, done + [x])
        == Execute(c, Executed(c, k, now, user, ip, done), now, user, ip, x)
  {
    ExecutedThen(c, k, now, user, ip, done, [x]);
    Executes(c, Executed(c, k, now, user, ip, done), now, user, ip);
  }

  /** One command after the other, up to the last. */
  lemma NextCommand(c: Config, k: Keys, now: nat, user: string, ip: Option<string>, n: nat)
    ensures var all, address := FailureCommands(c, k, now, user, ip), if ip.Some? then ip.value else "";
      && Interrupted(c, k, now, user, ip, 0) == k
      && (n < |all| ==> Interrupted(c, k, now, user, ip, n + 1)
                        == Execute(c, Interrupted(c, k, now, user, ip, n), now, user, address, all[n]))
      && (n >= |all| ==> Interrupted(c, k, now, user, ip, n) == Interrupted(c, k, now, user, ip, |all|))
  {
    var all, address := FailureCommands(c, k, now, user, ip), if ip.Some? then ip.value else "";
    assert all[..|all|] == all && all[..0] == [];
    hide FailureCommands, Execute;
    Executes(c, k, now, user, address);
    if n < |all| {
      assert all[..n + 1] == all[..n] + [all[n]];
      OneMore(c, k, now, user, address, all[..n], all[n]);
    }
  }

  lemma ExecutesTwo(c: Config, k: Keys, now: nat, user: string, ip: string, x: Command, y: Command)
    ensures Executed(c, k, now, user, ip, [x, y]) == Execute(c, Execute(c, k, now, user, ip, x), now, user, ip, y)
  {
    OneMore(c, k, now, user, ip, [x], y);
    assert [x] + [y] == [x, y];
    Executes(c, k, now, user, ip);
  }

  lemma ExpireAfterIncr(counters: map<string, Counter>, key: string, now: nat, window: nat)
    ensures Expire(Incr(counters, key, now), key, now, window) == Bumped(counters, key, now, window)
  {
  }

  /** A record that Redis executes to the end, as the two counters and the lock at once. */
  lemma UninterruptedIsAfterFailure(c: Config, k: Keys, now: nat, user: string, ip: Option<string>, n: nat)
    requires n >= 5
    ensures Interrupted(c, k, now, user, ip, n) == AfterFailure(c, k, now, user, ip)
  {
    var address := if ip.Some? then ip.value else "";
    var lock: seq<Command> := if Count(k.userFails, user, now) + 1 >= c.lockAt then [SetLock] else [];
    var ips: seq<Command> := if HasIp(ip) then [IncrIp, ExpireIp] else [];
    ExecutedThen(c, k, now, user, address, [IncrUser, ExpireUser] + ips, lock);
    ExecutedThen(c, k, now, user, address, [IncrUser, ExpireUser], ips);
    ExecutesTwo(c, k, now, user, address, IncrUser, ExpireUser);
    ExpireAfterIncr(k.userFails, user, now, c.window);
    var k1 := Executed(c, k, now, user, address, [IncrUser, ExpireUser]);
    ExecutesTwo(c, k1, now, user, address, IncrIp, ExpireIp);
    ExpireAfterIncr(k.ipFails, address, now, c.window);
    Executes(c, k1, now, user, address);
    Executes(c, Executed(c, k1, now, user, address, ips), now, user, address);
    hide Executed, Incr, Expire;
  }

  /** What a recorded failure means later on: it counts with those before it until the window is over, and not a
      second longer; from the threshold on the account is locked for exactly as long as the configuration says. No
      other user or address is concerned, and no address if it is unknown. */
  lemma FailureCountsForTheWindow(c: Config, k: Keys, now: nat, user: string, ip: Option<string>, later: nat)
    ensures var k' := AfterFailure(c, k, now, user, ip);
      && Count(k'.userFails, user, later) == (if later < now + c.window then Count(k.userFails, user, now) + 1 else 0)
      && (forall u | u != user :: Count(k'.userFails, u, later) == Count(k.userFails, u, later))
      && (forall x :: Count(k'.ipFails, x, later)
                      == if x == "" || ip != Some(x) then Count(k.ipFails, x, later)
                         else if later < now + c.window then Count(k.ipFails, x, now) + 1 else 0)
      && (Count(k.userFails, user, now) + 1 >= c.lockAt ==> (Locked(k', user, later) <==> later < now + c.lockSeconds))
      && (Count(k.userFails, user, now) + 1 < c.lockAt ==> k'.locks == k.locks)
      && (forall u | u != user :: Locked(k', u, later) <==> Locked(k, u, later))
  {
  }

  lemma ExpireKeepsCounts(counters: map<string, Counter>, key: string, now: nat, window: nat)
    ensures window > 0 ==> forall u :: Count(Expire(counters, key, now, window), u, now) == Count(counters, u, now)
  {
  }

  /** What the commands after the first leave alone. */
  lemma {:induction false} RestKeeps(c: Config, k: Keys, now: nat, user: string, ip: string, rest: seq<Command>)
    requires IncrUser !in rest
    ensures var k' := Executed(c, k, now, user, ip, rest);
      && (c.window > 0 ==> forall u :: Count(k'.userFails, u, now) == Count(k.userFails, u, now))
      && (SetLock !in rest ==> k'.locks == k.locks)
      && (ExpireUser !in rest ==> k'.userFails == k.userFails)
    decreases |rest|
  {
    if rest != [] {
      ExpireKeepsCounts(k.userFails, user, now, c.window);
      RestKeeps(c, Execute(c, k, now, user, ip, rest[0]), now, user, ip, rest[1..]);
      hide Count, Expire, Incr;
    }
  }

  /** A failure is counted for the user as soon as the first command gets through, whatever happens to
      the rest; the lock is set only if all of them do. */
  lemma InterruptedFailure(c: Config, k: Keys, now: nat, user: string, ip: Option<string>, n: nat)
    requires n > 0 && c.window > 0
    ensures var k' := Interrupted(c, k, now, user, ip, n);
      && (forall u :: Count(k'.userFails, u, now) == Count(k.userFails, u, now) + if u == user then 1 else 0)
      && (n < |FailureCommands(c, k, now, user, ip)| ==> k'.locks == k.locks)
  {
    var all, address := FailureCommands(c, k, now, user, ip), if ip.Some? then ip.value else "";
    var run := if n < |all| then all[..n] else all;
    RestKeeps(c, Execute(c, k, now, user, address, IncrUser), now, user, address, run[1..]);
    assert run[0] == IncrUser;
    hide Executed;
  }

  /** The user's counter is done with after two commands. */
  lemma AfterTwo(c: Config, k: Keys, now: nat, user: string, ip: Option<string>, n: nat)
    requires n >= 2
    ensures Interrupted(c, k, now, user, ip, n).userFails
         == Execute(c, Execute(c, k, now, user, "", IncrUser), now, user, "", ExpireUser).userFails
  {
    var all, address := FailureCommands(c, k, now, user, ip), if ip.Some? then ip.value else "";
    var run := if n < |all| then all[..n] else all;
    assert run == [IncrUser, ExpireUser] + run[2..] && IncrUser !in run[2..] && ExpireUser !in run[2..];
    ExecutedThen(c, k, now, user, address, [IncrUser, ExpireUser], run[2..]);
    ExecutesTwo(c, k, now, user, address, IncrUser, ExpireUser);
    RestKeeps(c, Executed(c, k, now, user, address, [IncrUser, ExpireUser]), now, user, address, run[2..]);
    hide Executed, Incr, Expire, FailureCommands;
  }

  /** A counter that never expires is left behind exactly when Redis fails between the first two
      commands, on a counter that had no expiry to inherit. */
  lemma CounterStaysForEverExactlyWhen(c: Config, k: Keys, now: nat, user: string, ip: Option<string>, n: nat)
    ensures var k' := Interrupted(c, k, now, user, ip, n);
      user in k'.userFails && k'.userFails[user].expires.None? <==>
        || (n == 1 && !(Alive(k.userFails, user, now) && k.userFails[user].expires.Some?))
        || (n == 0 && user in k.userFails && k.userFails[user].expires.None?)
    ensures var k' := Interrupted(c, k, now, user, ip, n);
      user in k'.userFails && k'.userFails[user].expires.None? ==>
        forall later :: Count(k'.userFails, user, later) == k'.userFails[user].count
  {
    NextCommand(c, k, now, user, ip, 0);
    if n > 1 { AfterTwo(c, k, now, user, ip, n); }
    hide Interrupted;
  }

  // ---------- The guard and the login that uses it ----------

  /** A Redis that executes `left` more commands; after that every command raises. */
  class Redis {
    var keys: Keys
    var now: nat
    var left: nat

    constructor (now: nat, left: nat)
      ensures keys == Keys(map[], map[], map[]) && this.now == now && this.left == left
    {
      keys, this.now, this.left := Keys(map[], map[], map[]), now, left;
    }

    method Get() returns (ok: bool)
      modifies this`left
      ensures ok <==> old(left) > 0
      ensures left == Less(old(left), 1)
    {
      ok := left > 0;
      if ok { left := left - 1; }
    }

    method Run(c: Config, user: string, ip: string, command: Command) returns (ok: bool)
      modifies this`keys, this`left
      ensures ok <==> old(left) > 0
      ensures keys == if ok then Execute(c, old(keys), now, user, ip, command) else old(keys)
      ensures left == Less(old(left), 1)
    {
      ok := left > 0;
      if ok {
        keys := Execute(c, keys, now, user, ip, command);
        left := left - 1;
      }
    }
  }

  function Less(n: nat, k: nat): nat { if n <= k then 0 else n - k }

  function CheckCommands(ip: Option<string>): nat { if HasIp(ip) then 3 else 2 }

  /** The decision when Redis answers `left` commands: a lock is seen by the first; short of all the
      answers the caller has to solve a captcha, whatever the counters are. */
  function DecideWith(c: Config, k: Keys, now: nat, user: string, ip: Option<string>, left: nat): Decision {
    if left > 0 && Locked(k, user, now) then Decision(false, true, false)
    else if left < CheckCommands(ip) then Decision(true, false, false)
    else Decide(c, k, now, user, ip)
  }

  class Guard {
    const redis: Redis
    const config: Config

    constructor (redis: Redis, config: Config)
      ensures this.redis == redis && this.config == config
    {
      this.redis, this.config := redis, config;
    }

    method PreCheck(user: string, ip: Option<string>) returns (d: Decision)
      modifies redis`left
      ensures d == DecideWith(config, redis.keys, redis.now, user, ip, old(redis.left))
      ensures var k, known := redis.keys, ip.Some? && ip.value != "";
              var locked := old(redis.left) > 0 && user in k.locks && redis.now < k.locks[user];
              var answered := old(redis.left) >= if known then 3 else 2;
              var limited := known && Count(k.ipFails, ip.value, redis.now) >= config.ipLimit;
              && (d.accountLocked <==> locked)
              && (d.ipRateLimited <==> !locked && answered && limited)
              && (d.requireCaptcha <==>
                    !locked && (answered ==> !limited && Count(k.userFails, user, redis.now) >= config.captchaAt))
      ensures redis.left == Less(old(redis.left), if Locked(redis.keys, user, redis.now) then 1 else CheckCommands(ip))
    {
      var ok := redis.Get();
      if !ok { return Decision(true, false, false); }
      if Locked(redis.keys, user, redis.now) { return Decision(false, true, false); }
      ok := redis.Get();
      if !ok { return Decision(true, false, false); }
      var userFails := Count(redis.keys.userFails, user, redis.now);
      var ipFails := 0;
      if HasIp(ip) {
        ok := redis.Get();
        if !ok { return Decision(true, false, false); }
        ipFails := Count(redis.keys.ipFails, ip.value, redis.now);
      }
      if HasIp(ip) && ipFails >= config.ipLimit { return Decision(false, false, true); }
      d := Decision(userFails >= config.captchaAt, false, false);
    }

    /** An exception is swallowed: what was executed stays. */
    method RecordFailure(user: string, ip: Option<string>)
      modifies redis`keys, redis`left
      ensures redis.keys == Interrupted(config, old(redis.keys), redis.now, user, ip, old(redis.left))
    {
      var address := if ip.Some? then ip.value else "";
      ghost var k, now, n := redis.keys, redis.now, redis.left;
      ghost var all := FailureCommands(config, k, now, user, ip);
      NextCommand(config, k, now, user, ip, 0);
      NextCommand(config, k, now, user, ip, 1);
      NextCommand(config, k, now, user, ip, n);
      hide Interrupted;
      var ok := redis.Run(config, user, address, IncrUser);
      if !ok { return; }
      var userFails := redis.keys.userFails[user].count;
      assert userFails == Count(k.userFails, user, now) + 1 && all[0] == IncrUser && all[1] == ExpireUser;
      hide Execute, Count;
      ok := redis.Run(config, user, address, ExpireUser);
      if !ok { return; }
      if HasIp(ip) {
        assert all[2] == IncrIp && all[3] == ExpireIp;
        NextCommand(config, k, now, user, ip, 2);
        NextCommand(config, k, now, user, ip, 3);
        ok := redis.Run(config, user, address, IncrIp);
        if !ok { return; }
        ok := redis.Run(config, user, address, ExpireIp);
        if !ok { return; }
      }
      if userFails >= config.lockAt {
        assert all[|all| - 1] == SetLock;
        NextCommand(config, k, now, user, ip, |all| - 1);
        ok := redis.Run(config, user, address, SetLock);
      }
    }

    /** The address is not forgiven. */
    method ClearOnSuccess(user: string)
      modifies redis`keys, redis`left
      ensures redis.keys == old(redis.keys).(
                userFails := if old(redis.left) > 0 then old(redis.keys.userFails) - {user}
                    else old(redis.keys.userFails),
                locks := if old(redis.left) > 1 then old(redis.keys.locks) - {user} else old(redis.keys.locks))
    {
      var ok := redis.Get();
      if !ok { return; }
      redis.keys := redis.keys.(userFails := redis.keys.userFails - {user});
      ok := redis.Get();
      if !ok { return; }
      redis.keys := redis.keys.(locks := redis.keys.locks - {user});
    }

    /** `login`, as far as the guard is concerned. */
    method Login(a: Attempt) returns (o: Outcome)
      requires a.now == redis.now
      modifies redis`keys, redis`left
      ensures o == OutcomeBy(DecideWith(config, old(redis.keys), a.now, a.user, a.ip, old(redis.left)), a)
      ensures old(redis.left) >= 8 ==>
                o == OutcomeOf(config, old(redis.keys), a) && redis.keys == After(config, old(redis.keys), a)
      ensures old(redis.left) >= 8 ==>
                var k, known := old(redis.keys), a.ip.Some? && a.ip.value != "";
                var locked := a.user in k.locks && a.now < k.locks[a.user];
                var limited := !locked && known && Count(k.ipFails, a.ip.value, a.now) >= config.ipLimit;
                var unsolved := !locked && !limited && !a.captchaOk
                                && Count(k.userFails, a.user, a.now) >= config.captchaAt;
                && (o == LockedOut <==> locked)
                && (o == RateLimited <==> limited)
                && (o == CaptchaRequired <==> unsolved)
                && (o == LoggedIn <==> !locked && !limited && !unsolved && a.passwordOk)
                && (o == LoggedIn ==>
                      redis.keys == k.(userFails := k.userFails - {a.user}, locks := k.locks - {a.user}))
                && (o == RateLimited || o == CaptchaRequired ==> redis.keys == k)
      ensures o == LockedOut || o == WrongPassword ==>
                var checks := if o == LockedOut then 1 else CheckCommands(a.ip);
                redis.keys == Interrupted(config, old(redis.keys), a.now, a.user, a.ip, Less(old(redis.left), checks))
      ensures old(redis.left) < 2 && (o.WrongPassword? || o.LoggedIn?) ==> a.captchaOk
    {
      var d := PreCheck(a.user, a.ip);
      if d.ipRateLimited { return RateLimited; }
      if d.accountLocked {
        ghost var k, left := redis.keys, redis.left;
        RecordFailure(a.user, a.ip);
        if left >= 5 { UninterruptedIsAfterFailure(config, k, a.now, a.user, a.ip, left); }
        return LockedOut;
      }
      if d.requireCaptcha && !a.captchaOk { return CaptchaRequired; }
      if !a.passwordOk {
        ghost var k, left := redis.keys, redis.left;
        RecordFailure(a.user, a.ip);
        if left >= 5 { UninterruptedIsAfterFailure(config, k, a.now, a.user, a.ip, left); }
        return WrongPassword;
      }
      ClearOnSuccess(a.user);
      o := LoggedIn;
    }
  }

  // ---------- How many guesses get through ----------

  /** Wrong passwords that were checked for a user in a series of attempts. */
  function UserGuesses(c: Config, k: Keys, tries: seq<Attempt>, user: string): nat
    decreases tries
  {
    if tries == [] then 0
    else
      (if tries[0].user == user && OutcomeOf(c, k, tries[0]).WrongPassword? then 1 else 0)
      + UserGuesses(c, After(c, k, tries[0]), tries[1..], user)
  }

  /** Wrong passwords that were checked from an address. */
  function IpGuesses(c: Config, k: Keys, tries: seq<Attempt>, ip: string): nat
    decreases tries
  {
    if tries == [] then 0
    else
      (if tries[0].ip == Some(ip) && OutcomeOf(c, k, tries[0]).WrongPassword? then 1 else 0)
      + IpGuesses(c, After(c, k, tries[0]), tries[1..], ip)
  }

  ghost predicate Within(tries: seq<Attempt>, from: nat, to: nat) {
    && (forall i | 0 <= i < |tries| :: from <= tries[i].now <= to)
    && (forall i, j | 0 <= i < j < |tries| :: tries[i].now <= tries[j].now)
  }

  ghost predicate NoLogin(c: Config, k: Keys, tries: seq<Attempt>, user: string)
    decreases tries
  {
    tries != [] ==>
      && !(tries[0].user == user && OutcomeOf(c, k, tries[0]).LoggedIn?)
      && NoLogin(c, After(c, k, tries[0]), tries[1..], user)
  }

  predicate Lasts(counter: Counter, until: nat) { counter.expires.None? || counter.expires.value >= until }

  /** After n checked guesses since `from`. */
  ghost predicate UserCounted(c: Config, k: Keys, user: string, from: nat, n: nat) {
    && n <= c.lockAt
    && (n > 0 ==> user in k.userFails && k.userFails[user].count >= n && Lasts(k.userFails[user], from + c.window))
    && (n == c.lockAt ==> user in k.locks && k.locks[user] >= from + c.lockSeconds)
  }

  lemma {:induction false} UserGuessesFrom(c: Config, k: Keys, tries: seq<Attempt>, user: string, from: nat, to: nat,
      n: nat)
    requires c.lockAt > 0 && to < from + c.window && to < from + c.lockSeconds
    requires Within(tries, from, to) && NoLogin(c, k, tries, user) && UserCounted(c, k, user, from, n)
    ensures n + UserGuesses(c, k, tries, user) <= c.lockAt
    decreases tries
  {
    if tries != [] {
      var a, k' := tries[0], After(c, k, tries[0]);
      assert from <= a.now <= to;
      var n' := n + if a.user == user && OutcomeOf(c, k, a).WrongPassword? then 1 else 0;
      assert Within(tries[1..], from, to);
      assert UserCounted(c, k', user, from, n');
      UserGuessesFrom(c, k', tries[1..], user, from, to, n');
    }
  }

  /** From any state on: in a span shorter than the counting window and the lock, without a login of the
      user, at most `lockAt` wrong passwords are checked for one user, from however many addresses. */
  lemma UserGuessesAreBounded(c: Config, k: Keys, tries: seq<Attempt>, user: string, from: nat, to: nat)
    requires c.lockAt > 0 && to < from + c.window && to < from + c.lockSeconds
    requires Within(tries, from, to) && NoLogin(c, k, tries, user)
    ensures UserGuesses(c, k, tries, user) <= c.lockAt
  {
    UserGuessesFrom(c, k, tries, user, from, to, 0);
  }

  ghost predicate IpCounted(c: Config, k: Keys, ip: string, from: nat, n: nat) {
    && n <= c.ipLimit
    && (n > 0 ==> ip in k.ipFails && k.ipFails[ip].count >= n && Lasts(k.ipFails[ip], from + c.window))
  }

  lemma {:induction false} IpGuessesFrom(c: Config, k: Keys, tries: seq<Attempt>, ip: string, from: nat, to: nat,
      n: nat)
    requires to < from + c.window && ip != "" && Within(tries, from, to) && IpCounted(c, k, ip, from, n)
    ensures n + IpGuesses(c, k, tries, ip) <= c.ipLimit
    decreases tries
  {
    if tries != [] {
      var a, k' := tries[0], After(c, k, tries[0]);
      assert from <= a.now <= to;
      var n' := n + if a.ip == Some(ip) && OutcomeOf(c, k, a).WrongPassword? then 1 else 0;
      assert Within(tries[1..], from, to);
      assert IpCounted(c, k', ip, from, n');
      IpGuessesFrom(c, k', tries[1..], ip, from, to, n');
    }
  }

  /** From any state on: in a span shorter than the window at most `ipLimit` wrong passwords are checked
      from one address, for however many users, and logins in between do not help. */
  lemma IpGuessesAreBounded(c: Config, k: Keys, tries: seq<Attempt>, ip: string, from: nat, to: nat)
    requires to < from + c.window && ip != "" && Within(tries, from, to)
    ensures IpGuesses(c, k, tries, ip) <= c.ipLimit
  {
    IpGuessesFrom(c, k, tries, ip, from, to, 0);
  }

  function Repeated(a: Attempt, n: nat): seq<Attempt> { if n == 0 then [] else [a] + Repeated(a, n - 1) }

  function Least(a: int, b: int): int { if a <= b then a else b }

  /** How many more wrong passwords of this kind are checked: up to the lock, without a solved captcha only up to the
      captcha, and from a known address only up to its limit. */
  function LeftToGuess(c: Config, k: Keys, a: Attempt): int {
    var fails := Count(k.userFails, a.user, a.now);
    var unsolved := if a.captchaOk then c.lockAt - fails else Least(c.lockAt - fails, c.captchaAt - fails);
    if a.ip.Some? && a.ip.value != "" then Least(unsolved, c.ipLimit - Count(k.ipFails, a.ip.value, a.now))
    else unsolved
  }

  lemma OneOfTheBurst(c: Config, k: Keys, a: Attempt)
    requires c.lockAt > 0 && c.window > 0 && c.lockSeconds > 0 && !a.passwordOk
    requires Locked(k, a.user, a.now) <==> Count(k.userFails, a.user, a.now) >= c.lockAt
    ensures var k' := After(c, k, a);
      && (Locked(k', a.user, a.now) <==> Count(k'.userFails, a.user, a.now) >= c.lockAt)
      && (OutcomeOf(c, k, a).WrongPassword? <==> LeftToGuess(c, k, a) > 0)
      && (if LeftToGuess(c, k, a) > 0 then LeftToGuess(c, k', a) == LeftToGuess(c, k, a) - 1
          else LeftToGuess(c, k', a) <= 0)
  {
  }

  /** The bounds are met: a burst of n wrong passwords gets n of them checked up to the lowest of the thresholds that
      apply, and no more. */
  lemma {:induction false} BurstGetsExactly(c: Config, k: Keys, a: Attempt, n: nat)
    requires c.lockAt > 0 && c.window > 0 && c.lockSeconds > 0 && !a.passwordOk
    requires Locked(k, a.user, a.now) <==> Count(k.userFails, a.user, a.now) >= c.lockAt
    ensures var left := LeftToGuess(c, k, a);
      UserGuesses(c, k, Repeated(a, n), a.user) == if left <= 0 then 0 else if n <= left then n else left
    decreases n
  {
    if n > 0 {
      assert Repeated(a, n)[1..] == Repeated(a, n - 1);
      OneOfTheBurst(c, k, a);
      hide After, OutcomeOf, LeftToGuess, Locked, Count;
      BurstGetsExactly(c, After(c, k, a), a, n - 1);
    }
  }

  // ---------- Guesses without a captcha ----------

  /** Wrong passwords that were checked for a user without a solved captcha. */
  function UnsolvedGuesses(c: Config, k: Keys, tries: seq<Attempt>, user: string): nat
    decreases tries
  {
    if tries == [] then 0
    else
      (if tries[0].user == user && !tries[0].captchaOk && OutcomeOf(c, k, tries[0]).WrongPassword? then 1 else 0)
      + UnsolvedGuesses(c, After(c, k, tries[0]), tries[1..], user)
  }

  ghost predicate UnsolvedCounted(c: Config, k: Keys, user: string, from: nat, n: nat) {
    && n <= c.captchaAt
    && (n > 0 ==> user in k.userFails && k.userFails[user].count >= n && Lasts(k.userFails[user], from + c.window))
  }

  lemma {:induction false} UnsolvedGuessesFrom(c: Config, k: Keys, tries: seq<Attempt>, user: string, from: nat,
      to: nat, n: nat)
    requires to < from + c.window
    requires Within(tries, from, to) && NoLogin(c, k, tries, user) && UnsolvedCounted(c, k, user, from, n)
    ensures n + UnsolvedGuesses(c, k, tries, user) <= c.captchaAt
    decreases tries
  {
    if tries != [] {
      var a, k' := tries[0], After(c, k, tries[0]);
      assert from <= a.now <= to;
      var n' := n + if a.user == user && !a.captchaOk && OutcomeOf(c, k, a).WrongPassword? then 1 else 0;
      assert Within(tries[1..], from, to);
      assert UnsolvedCounted(c, k', user, from, n');
      UnsolvedGuessesFrom(c, k', tries[1..], user, from, to, n');
    }
  }

  /** From any state on: in a span shorter than the counting window, without a login of the user, at most `captchaAt`
      wrong passwords are checked for the user without a solved captcha. */
  lemma UnsolvedGuessesAreBounded(c: Config, k: Keys, tries: seq<Attempt>, user: string, from: nat, to: nat)
    requires to < from + c.window && Within(tries, from, to) && NoLogin(c, k, tries, user)
    ensures UnsolvedGuesses(c, k, tries, user) <= c.captchaAt
  {
    UnsolvedGuessesFrom(c, k, tries, user, from, to, 0);
  }
}
