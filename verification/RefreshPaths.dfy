/** Runs that do happen: how far the conditions of RefreshRuns and RefreshSessions are needed. */
module RefreshPaths {
  import opened Wrappers
  import opened RefreshTable
  import opened RefreshService
  import opened RefreshConcurrent
  import opened RefreshSafety
  import opened RefreshRuns

  // ---------- Paths ----------

  /** A stretch of a run, from any state. */
  ghost predicate IsPath(st: Settings, states: seq<Sys>, acts: seq<Action>) {
    && |states| == |acts| + 1
    && forall i | 0 <= i < |acts| :: Step(st, states[i], acts[i], states[i + 1])
  }

  function Last(states: seq<Sys>): Sys requires states != [] { states[|states| - 1] }

  lemma Then(st: Settings, states: seq<Sys>, acts: seq<Action>, a: Action, s': Sys)
    returns (longer: seq<Sys>, more: seq<Action>)
    requires IsPath(st, states, acts) && Step(st, Last(states), a, s')
    ensures IsPath(st, longer, more) && longer[0] == states[0] && Last(longer) == s'
    ensures longer == states + [s'] && more == acts + [a]
  {
    hide Step;
    longer, more := states + [s'], acts + [a];
  }

  lemma Here(st: Settings, s: Sys) returns (states: seq<Sys>, acts: seq<Action>)
    ensures IsPath(st, states, acts) && states == [s]
  {
    states, acts := [s], [];
  }

  lemma Join(st: Settings, states: seq<Sys>, acts: seq<Action>, more: seq<Sys>, moves: seq<Action>)
    requires IsPath(st, states, acts) && IsPath(st, more, moves) && Last(states) == more[0]
    ensures IsPath(st, states + more[1..], acts + moves) && Last(states + more[1..]) == Last(more)
  {
    hide Step;
    var all, both := states + more[1..], acts + moves;
    forall i | 0 <= i < |both| ensures Step(st, all[i], both[i], all[i + 1]) {
      if i >= |acts| {
        var k := i - |acts|;
        assert Step(st, more[k], moves[k], more[k + 1]);
        assert all[i] == more[k] && all[i + 1] == more[k + 1];
      }
    }
  }

  lemma Onward(st: Settings, states: seq<Sys>, acts: seq<Action>, more: seq<Sys>, moves: seq<Action>)
    returns (longer: seq<Sys>, all: seq<Action>)
    requires IsPath(st, states, acts) && IsPath(st, more, moves) && Last(states) == more[0]
    ensures IsPath(st, longer, all) && longer != [] && longer[0] == states[0] && Last(longer) == Last(more)
  {
    Join(st, states, acts, more, moves);
    hide Step;
    longer, all := states + more[1..], acts + moves;
  }

  // ---------- A refresh runs to its end ----------

  /** An open refresh before its lock, for a stored token that was good at its first clock reading. */
  ghost predicate Waiting(s: Sys, p: Pid) {
    && p in s.txns && (s.txns[p].pc.Begun? || s.txns[p].pc.Known?)
    && var job := s.txns[p].pc.job;
       && job.Refresh? && job.jti in s.rows
       && var row := s.rows[job.jti];
          && row.jti == job.jti && row.secret == job.secret && Renewable(row, job.checked)
          && (s.txns[p].pc.Known? ==> s.txns[p].pc.user == row.user)
          && Bucket(row.user) !in s.locks
  }

  /** Only transaction p and the locks have moved from s to s'. */
  ghost predicate Stepped(s: Sys, s': Sys, p: Pid, pc: Pc, writes: Table) {
    s' == s.(txns := s.txns[p := Txn(pc, writes)], locks := s'.locks)
  }

  lemma UserIsRead(st: Settings, s: Sys, p: Pid) returns (s': Sys)
    requires Waiting(s, p) && s.txns[p].pc.Begun?
    ensures var job := s.txns[p].pc.job;
      && Step(st, s, ReadUser(p), s') && s'.locks == s.locks
      && Stepped(s, s', p, Known(job, s.rows[job.jti].user), map[])
  {
    var job := s.txns[p].pc.job;
    s' := SetPc(s, p, Known(job, s.rows[job.jti].user), map[]);
    hide Renewable;
  }

  lemma LockIsTaken(st: Settings, s: Sys, p: Pid) returns (s': Sys)
    requires p in s.txns && s.txns[p].pc.Known? && Bucket(s.txns[p].pc.user) !in s.locks
    ensures var pc := s.txns[p].pc;
      && Step(st, s, TakeLock(p), s') && Stepped(s, s', p, Holding(pc.job, pc.user), map[])
      && s'.locks == s.locks[Bucket(pc.user) := p]
  {
    var pc := s.txns[p].pc;
    s' := SetPc(s, p, Holding(pc.job, pc.user), map[]).(locks := s.locks[Bucket(pc.user) := p]);
  }

  lemma RowIsRead(st: Settings, s: Sys, p: Pid) returns (s': Sys)
    requires p in s.txns && s.txns[p].pc.Holding? && IsToken(s.txns[p].pc.job)
    requires var job := s.txns[p].pc.job; job.jti in s.rows && s.rows[job.jti].secret == job.secret
    ensures var job := s.txns[p].pc.job;
      Step(st, s, ReadRow(p), s') && Stepped(s, s', p, Checked(job, s.rows[job.jti]), map[])
  {
    var job := s.txns[p].pc.job;
    s' := SetPc(s, p, Checked(job, s.rows[job.jti]), map[]);
  }

  /** Up to the row lock, with the statement that reads the user if it is still to come. */
  lemma RowIsLocked(st: Settings, s: Sys, p: Pid) returns (states: seq<Sys>, acts: seq<Action>)
    requires Waiting(s, p)
    ensures IsPath(st, states, acts) && states[0] == s
    ensures var job := s.txns[p].pc.job; Stepped(s, Last(states), p, Checked(job, s.rows[job.jti]), map[])
  {
    hide IsPath, Renewable, Step, Stepped;
    states, acts := Here(st, s);
    if s.txns[p].pc.Begun? {
      var s1 := UserIsRead(st, s, p);
      states, acts := Then(st, states, acts, ReadUser(p), s1);
      WaitsOn(s, s1, p);
      var more, moves := KnownIsLocked(st, s1, p);
      SteppedTwice(s, s1, p);
      states, acts := Onward(st, states, acts, more, moves);
    } else {
      states, acts := KnownIsLocked(st, s, p);
    }
  }

  lemma WaitsOn(s: Sys, s1: Sys, p: Pid)
    requires Waiting(s, p) && s.txns[p].pc.Begun? && s1.locks == s.locks
    requires var job := s.txns[p].pc.job; Stepped(s, s1, p, Known(job, s.rows[job.jti].user), map[])
    ensures Waiting(s1, p) && s1.txns[p].pc.Known? && s1.txns[p].pc.job == s.txns[p].pc.job && s1.rows == s.rows
  {
    hide Renewable;
  }

  lemma SteppedTwice(s: Sys, s1: Sys, p: Pid)
    requires exists pc, w :: Stepped(s, s1, p, pc, w)
    ensures forall s2, pc, w | Stepped(s1, s2, p, pc, w) :: Stepped(s, s2, p, pc, w)
  {
  }

  lemma KnownIsLocked(st: Settings, s: Sys, p: Pid) returns (states: seq<Sys>, acts: seq<Action>)
    requires Waiting(s, p) && s.txns[p].pc.Known?
    ensures IsPath(st, states, acts) && states[0] == s
    ensures var job := s.txns[p].pc.job; Stepped(s, Last(states), p, Checked(job, s.rows[job.jti]), map[])
  {
    hide IsPath, Renewable, Step;
    states, acts := Here(st, s);
    var s1 := LockIsTaken(st, s, p);
    states, acts := Then(st, states, acts, TakeLock(p), s1);
    var s2 := RowIsRead(st, s1, p);
    states, acts := Then(st, states, acts, ReadRow(p), s2);
  }

  lemma SuccessorIsInserted(st: Settings, s: Sys, p: Pid, next: Jti, secret: nat) returns (s': Sys)
    requires p in s.txns && s.txns[p].pc.Checked? && s.txns[p].pc.job.Refresh? && s.txns[p].writes == map[]
    requires Renewable(s.txns[p].pc.row, s.txns[p].pc.job.checked) && next !in s.issued
    ensures Step(st, s, InsertNext(p, next, secret), s')
    ensures var pc := s.txns[p].pc; var row := pc.row;
      var n := NewRow(st, s.nextId, next, row.family, row.user, secret, s.clock, row.absoluteAt);
      s' == s.(txns := s.txns[p := Txn(Inserted(pc.job.checked, row, next), map[next := n])],
               nextId := s.nextId + 1, issued := s.issued[next := row.family])
  {
    hide Renewable;
    var pc := s.txns[p].pc;
    var row := pc.row;
    var n := NewRow(st, s.nextId, next, row.family, row.user, secret, s.clock, row.absoluteAt);
    hide NewRow;
    assert s.txns[p].writes[next := n] == map[next := n];
    s' := SetPc(s, p, Inserted(pc.job.checked, row, next), map[next := n])
          .(nextId := s.nextId + 1, issued := s.issued[next := row.family]);
  }

  lemma OldIsMarked(st: Settings, s: Sys, p: Pid) returns (s': Sys)
    requires p in s.txns && s.txns[p].pc.Inserted?
    ensures Step(st, s, MarkOld(p), s')
    ensures var pc := s.txns[p].pc;
      s' == s.(txns := s.txns[p := Txn(Marked(pc.row),
                                       s.txns[p].writes[pc.row.jti := MarkedRotated(pc.row, pc.next, pc.checked)])])
  {
    var pc := s.txns[p].pc;
    s' := SetPc(s, p, Marked(pc.row), s.txns[p].writes[pc.row.jti := MarkedRotated(pc.row, pc.next, pc.checked)]);
    hide MarkedRotated;
  }

  lemma UserIsChecked(st: Settings, s: Sys, p: Pid) returns (s': Sys)
    requires p in s.txns && s.txns[p].pc.Marked?
    ensures Step(st, s, CheckUser(p), s') && s' == s.(txns := s'.txns) && p in s'.txns && s'.txns[p].pc.Finished?
    ensures var row := s.txns[p].pc.row;
      && NewlyRotated(s'.txns[p].pc.result) == [row.jti]
      && (row.user in s.enabled ==> s'.txns[p].writes == s.txns[p].writes)
  {
    var row := s.txns[p].pc.row;
    s' := if row.user in s.enabled
          then SetPc(s, p, Finished(Some(row.user), Result.Renewed(row.jti)), s.txns[p].writes)
          else SetPc(s, p, Finished(Some(row.user), Denied(row.jti, row.family)),
                     RevokeIn(s.rows, s.txns[p].writes, row.family, LoggedOut, s.clock));
    hide RevokeIn;
  }

  /** From the row lock to the last statement. */
  lemma RowIsRotated(st: Settings, s: Sys, p: Pid, next: Jti, secret: nat) returns (states: seq<Sys>, acts: seq<Action>)
    requires p in s.txns && s.txns[p].pc.Checked? && s.txns[p].pc.job.Refresh? && s.txns[p].writes == map[]
    requires Renewable(s.txns[p].pc.row, s.txns[p].pc.job.checked) && next !in s.issued
    ensures IsPath(st, states, acts) && states[0] == s
    ensures var row := s.txns[p].pc.row; var s' := Last(states);
      && p in s'.txns && s'.txns[p].pc.Finished? && NewlyRotated(s'.txns[p].pc.result) == [row.jti]
      && s' == s.(txns := s'.txns, nextId := s.nextId + 1, issued := s.issued[next := row.family])
      && (row.user in s.enabled ==> s'.txns[p].writes == Swap(st, s, row, next, secret, s.txns[p].pc.job.checked))
  {
    hide IsPath, Step, Renewable, NewRow, MarkedRotated, NewlyRotated;
    states, acts := Here(st, s);
    var s1 := SuccessorIsInserted(st, s, p, next, secret);
    states, acts := Then(st, states, acts, InsertNext(p, next, secret), s1);
    var s2 := OldIsMarked(st, s1, p);
    states, acts := Then(st, states, acts, MarkOld(p), s2);
    var s3 := UserIsChecked(st, s2, p);
    states, acts := Then(st, states, acts, CheckUser(p), s3);
  }

  function Swap(st: Settings, s: Sys, row: Row, next: Jti, secret: nat, checked: Time): Table {
    map[next := NewRow(st, s.nextId, next, row.family, row.user, secret, s.clock, row.absoluteAt)]
       [row.jti := MarkedRotated(row, next, checked)]
  }

  lemma CommitRuns(st: Settings, s: Sys, p: Pid) returns (s': Sys)
    requires p in s.txns && s.txns[p].pc.Finished?
    ensures Step(st, s, Commit(p), s') && s'.rows == View(s.rows, s.txns[p].writes)
    ensures s'.rotated == s.rotated + NewlyRotated(s.txns[p].pc.result) && s'.issued == s.issued && s'.clock == s.clock
  {
    var w := s.txns[p].writes;
    s' := Release(s, p).(rows := View(s.rows, w), past := s.past + w.Keys,
                         known := s.known + set j | j in w :: w[j].family,
                         passwords := NewPasswords(s, s.txns[p].pc.result),
                         rotated := s.rotated + NewlyRotated(s.txns[p].pc.result));
    hide View, NewlyRotated, NewPasswords;
  }

  /** A waiting refresh can run to its end with nobody in between, and its rotation is then committed. */
  lemma RefreshRunsThrough(st: Settings, s: Sys, p: Pid, next: Jti, secret: nat)
    returns (states: seq<Sys>, acts: seq<Action>)
    requires Waiting(s, p) && next !in s.issued && next !in s.rows
    ensures IsPath(st, states, acts) && states[0] == s
    ensures var job, s' := s.txns[p].pc.job, Last(states); var row := s.rows[job.jti];
      && s'.rotated == s.rotated + [job.jti] && s'.issued == s.issued[next := row.family] && s'.clock == s.clock
      && (row.user in s.enabled ==>
            s'.rows == Rotate(st, s.rows, job.jti, s.nextId, next, secret, job.checked, s.clock))
  {
    var job := s.txns[p].pc.job;
    var row := s.rows[job.jti];
    assert row.jti == job.jti;
    states, acts := RowIsLocked(st, s, p);
    hide Waiting, Step, Renewable, NewRow, MarkedRotated;
    var s1 := Last(states);
    var more, moves := RowIsRotated(st, s1, p, next, secret);
    states, acts := Onward(st, states, acts, more, moves);
    var s2 := Last(states);
    var s3 := CommitRuns(st, s2, p);
    states, acts := Then(st, states, acts, Commit(p), s3);
    if row.user in s.enabled { SwapRotates(st, s, row, next, secret, job.checked); }
    hide View, Rotate, Swap, IsPath;
  }

  lemma SwapRotates(st: Settings, s: Sys, row: Row, next: Jti, secret: nat, checked: Time)
    requires row.jti in s.rows && s.rows[row.jti] == row && next !in s.rows
    ensures View(s.rows, Swap(st, s, row, next, secret, checked))
        == Rotate(st, s.rows, row.jti, s.nextId, next, secret, checked, s.clock)
  {
    hide NewRow, MarkedRotated;
  }

  lemma {:induction false} Fresh(used: set<Jti>) returns (j: Jti)
    ensures forall k | k in used :: k < j
  {
    if used == {} {
      j := 0;
    } else {
      var k :| k in used;
      var rest := Fresh(used - {k});
      j := if k < rest then rest else k + 1;
      assert forall i | i in used :: i == k || i in used - {k};
    }
  }

  // ---------- What a change of password cannot stop ----------

  ghost predicate NoneRotatedSince(s: Sys, s': Sys, f: Family) {
    forall m | |s.rotated| <= m < |s'.rotated| :: s'.rotated[m] in s'.issued && s'.issued[s'.rotated[m]] != f
  }

  /** A transaction that may renew a family and holds a lock holds that of the family's user. */
  lemma LateOwner(st: Settings, s: Sys, p: Pid, x: Txn, f: Family)
    requires TableOk(st, s) && TxnOk(st, s, p, x) && MayRenewLate(s, x, f) && Owner(x.pc).Some? && f in s.origins
    ensures Owner(x.pc) == Some(s.origins[f].user)
  {
    hide Inv, Renewable, View;
    match x.pc
    case Holding(job, _) => StoredUser(st, s, job.jti);
    case Checked(job, _) => StoredUser(st, s, job.jti);
    case Inserted(_, row, _) => StoredUser(st, s, row.jti);
    case Marked(row) => StoredUser(st, s, row.jti);
    case Finished(_, Renewed(j)) => assert WriteOk(s, x, j);
    case Finished(_, Denied(j, _)) => assert WriteOk(s, x, j);
  }

  /** The commit has released the user's bucket, so a refresh that can still renew a family of the user
      has not got beyond waiting for it. */
  lemma LateIsWaiting(st: Settings, s: Sys, p: Pid, s': Sys, user: int, f: Family, q: Pid)
    requires SysOk(st, s) && SysOk(st, s') && StepCommit(s, p, s') && Owner(s.txns[p].pc) == Some(user)
    requires f in s.origins && s.origins[f].user == user && q in s'.txns && MayRenewLate(s', s'.txns[q], f)
    ensures Waiting(s', q) && s'.txns[q].pc.job.jti in s'.issued && s'.issued[s'.txns[q].pc.job.jti] == f
  {
    hide Inv, SysOk, WriteOk, View, Renewable, TableOk, ResultOk;
    BucketIsFree(st, s, p, s', user);
    hide StepCommit;
    TheTxn(st, s', q);
    var x := s'.txns[q];
    if Owner(x.pc).Some? { LateOwner(st, s', q, x, f); }
    assert Owner(x.pc).None?;
    if x.pc.Begun? || x.pc.Known? { LateRowIsGood(st, s', x.pc.job, f); }
  }

  lemma BucketIsFree(st: Settings, s: Sys, p: Pid, s': Sys, user: int)
    requires SysOk(st, s) && StepCommit(s, p, s') && Owner(s.txns[p].pc) == Some(user)
    ensures Bucket(user) !in s'.locks
  {
    TheTxn(st, s, p);
    hide Inv, SysOk, WriteOk, PcOk, View, TableOk;
  }

  lemma LateRowIsGood(st: Settings, s: Sys, job: Job, f: Family)
    requires TableOk(st, s) && LateJob(s, job, f) && f in s.origins
    ensures var r := s.rows[job.jti]; r.jti == job.jti && Renewable(r, job.checked) && r.user == s.origins[f].user
    ensures job.jti in s.issued && s.issued[job.jti] == f
  {
    StoredUser(st, s, job.jti);
    assert RowOk(st, s.origins, job.jti, s.rows[job.jti]);
  }

  /** A committed change of password shuts an older family of the user for good if and only if no open
      refresh is still waiting with a clock reading from before the live row's expiry. */
  lemma PasswordChangeIsFinalExactlyWhen(st: Settings, states: seq<Sys>, acts: seq<Action>, p: Pid, user: int,
                                         newest: Family, n: Time, f: Family)
    requires IsRun(st, states, acts) && acts != [] && acts[|acts| - 1] == Commit(p)
    requires var s := states[|acts| - 1];
      && p in s.txns && s.txns[p].pc == Finished(Some(user), Changed(user, newest, n))
      && f in s.known && f != newest && f in s.origins && s.origins[f].user == user
    ensures NoneLate(Last(states), f)
       <==> forall more, moves | IsPath(st, more, moves) && more[0] == Last(states) ::
              NoneRotatedSince(more[0], Last(more), f)
  {
    var s, s' := states[|acts| - 1], Last(states);
    hide Inv, SysOk, MayRenewLate, NoneLate, NoneRotatedSince, Waiting, Retired;
    if NoneLate(s', f) {
      forall more, moves | IsPath(st, more, moves) && more[0] == s' ensures NoneRotatedSince(s', Last(more), f) {
        FinalOnPath(st, states, acts, p, user, newest, n, f, more, moves);
      }
    } else {
      var q := LateOne(s', f);
      var more, moves := LateRenewal(st, states, acts, p, user, f, q);
      assert !NoneRotatedSince(more[0], Last(more), f);
    }
  }

  lemma LateOne(s: Sys, f: Family) returns (q: Pid)
    requires !NoneLate(s, f)
    ensures q in s.txns && MayRenewLate(s, s.txns[q], f)
  {
    hide MayRenewLate;
    q :| q in s.txns && MayRenewLate(s, s.txns[q], f);
  }

  lemma FinalOnPath(st: Settings, states: seq<Sys>, acts: seq<Action>, p: Pid, user: int, newest: Family, n: Time,
                    f: Family, more: seq<Sys>, moves: seq<Action>)
    requires IsRun(st, states, acts) && acts != [] && acts[|acts| - 1] == Commit(p)
    requires var s := states[|acts| - 1];
      && p in s.txns && s.txns[p].pc == Finished(Some(user), Changed(user, newest, n))
      && f in s.known && f != newest && f in s.origins && s.origins[f].user == user
    requires NoneLate(Last(states), f) && IsPath(st, more, moves) && more[0] == Last(states)
    ensures NoneRotatedSince(more[0], Last(more), f)
  {
    hide Inv, SysOk, NoneLate, Retired, Step;
    Join(st, states, acts, more, moves);
    var all, both := states + more[1..], acts + moves;
    var i := |acts| - 1;
    PasswordChangeIsFinal(st, all, both, i, |both|, p, user, newest, n, f);
    assert all[i + 1] == more[0] && all[|both|] == Last(more);
  }

  lemma LateRenewal(st: Settings, states: seq<Sys>, acts: seq<Action>, p: Pid, user: int, f: Family, q: Pid)
    returns (more: seq<Sys>, moves: seq<Action>)
    requires IsRun(st, states, acts) && acts != [] && acts[|acts| - 1] == Commit(p)
    requires var s := states[|acts| - 1];
      && p in s.txns && Owner(s.txns[p].pc) == Some(user) && f in s.origins && s.origins[f].user == user
    requires q in Last(states).txns && MayRenewLate(Last(states), Last(states).txns[q], f)
    ensures IsPath(st, more, moves) && more[0] == Last(states) && !NoneRotatedSince(more[0], Last(more), f)
  {
    hide Inv, SysOk, MayRenewLate;
    var s, s' := states[|acts| - 1], Last(states);
    Reachable(st, states, acts, |acts| - 1);
    Reachable(st, states, acts, |acts|);
    assert Step(st, s, acts[|acts| - 1], s');
    LateIsWaiting(st, s, p, s', user, f, q);
    var next := Fresh(s'.issued.Keys + s'.rows.Keys);
    hide Step, IsPath;
    more, moves := RefreshRunsThrough(st, s', q, next, 0);
    var j := s'.txns[q].pc.job.jti;
    assert Last(more).rotated[|s'.rotated|] == j && Last(more).issued[j] == f;
  }

  // ---------- A login and a change of password with nobody in between ----------

  function First(st: Settings, s: Sys, user: int, jti: Jti, secret: nat, family: Family): Row {
    NewRow(st, s.nextId, jti, family, user, secret, s.clock, s.clock + st.absolute)
  }

  /** The state in which a login, or a change of password that finds no active family, has come and gone. */
  function WithLogin(st: Settings, s: Sys, job: Job, jti: Jti, secret: nat, family: Family): Sys
    requires !IsToken(job)
  {
    s.(rows := s.rows[jti := First(st, s, job.user, jti, secret, family)], nextId := s.nextId + 1,
       issued := s.issued[jti := family], origins := s.origins[family := Origin(job.user, s.clock)],
       openedWith := s.openedWith[family := job.password],
       passwords := if job.Login? then s.passwords else s.passwords[job.user := Password(s, job.user) + 1],
       past := s.past + {jti}, known := s.known + {family})
  }

  ghost predicate FreeForLogin(s: Sys, p: Pid, jti: Jti, family: Family) {
    p !in s.txns && s.locks == map[] && jti !in s.issued && jti !in s.rows && family !in s.origins
  }

  lemma UpToTheLock(st: Settings, s: Sys, p: Pid, job: Job) returns (states: seq<Sys>, acts: seq<Action>)
    requires p !in s.txns && s.locks == map[] && !IsToken(job) && Verifies(s, job)
    ensures IsPath(st, states, acts) && states[0] == s
    ensures Last(states) == SetPc(s, p, Holding(job, job.user), map[]).(locks := map[Bucket(job.user) := p])
  {
    var s1 := SetPc(s, p, Begun(job), map[]);
    var s2 := SetPc(s1, p, Known(job, job.user), map[]);
    var s3 := SetPc(s2, p, Holding(job, job.user), map[]).(locks := map[Bucket(job.user) := p]);
    assert s2.locks[Bucket(job.user) := p] == map[Bucket(job.user) := p];
    states, acts := Here(st, s);
    states, acts := Then(st, states, acts, Begin(p, job), s1);
    states, acts := Then(st, states, acts, ReadUser(p), s2);
    states, acts := Then(st, states, acts, TakeLock(p), s3);
  }

  /** Meanwhile: the family is opened, nothing is committed. */
  function Midway(st: Settings, s: Sys, p: Pid, job: Job, jti: Jti, secret: nat, family: Family, pc: Pc): Sys
    requires !IsToken(job)
  {
    s.(txns := s.txns[p := Txn(pc, map[jti := First(st, s, job.user, jti, secret, family)])],
       locks := map[Bucket(job.user) := p], nextId := s.nextId + 1,
       issued := s.issued[jti := family], origins := s.origins[family := Origin(job.user, s.clock)],
       openedWith := s.openedWith[family := job.password])
  }

  lemma OneWrite(rows: Table, jti: Jti, n: Row)
    ensures View(rows, map[jti := n]) == rows[jti := n]
    ensures (set j | j in map[jti := n] :: map[jti := n][j].family) == {n.family}
  {
    assert jti in map[jti := n];
  }

  function Outcome(s: Sys, job: Job, family: Family): Result
    requires !IsToken(job)
  {
    if job.Login? then LoggedIn else Changed(job.user, family, s.clock)
  }

  lemma CommitsMidway(st: Settings, s: Sys, p: Pid, job: Job, jti: Jti, secret: nat, family: Family)
    requires p !in s.txns && s.locks == map[] && !IsToken(job)
    ensures Step(st, Midway(st, s, p, job, jti, secret, family, Finished(Some(job.user), Outcome(s, job, family))),
                 Commit(p), WithLogin(st, s, job, jti, secret, family))
  {
    var n := First(st, s, job.user, jti, secret, family);
    assert n.family == family;
    hide First, NewRow, View;
    OneWrite(s.rows, jti, n);
    Released(st, s, p, job, jti, secret, family, Finished(Some(job.user), Outcome(s, job, family)));
    hide Midway, Release;
  }

  lemma Released(st: Settings, s: Sys, p: Pid, job: Job, jti: Jti, secret: nat, family: Family, pc: Pc)
    requires p !in s.txns && s.locks == map[] && !IsToken(job)
    ensures var mid := Midway(st, s, p, job, jti, secret, family, pc);
      && Release(mid, p) == mid.(txns := s.txns, locks := map[])
      && p in mid.txns && mid.txns[p] == Txn(pc, map[jti := First(st, s, job.user, jti, secret, family)])
      && mid.rows == s.rows && mid.rotated == s.rotated && mid.known == s.known && mid.past == s.past
      && mid.passwords == s.passwords
      && WithLogin(st, s, job, jti, secret, family)
         == mid.(txns := s.txns, locks := map[], rows := s.rows[jti := First(st, s, job.user, jti, secret, family)],
                 passwords := if job.Login? then s.passwords else s.passwords[job.user := Password(s, job.user) + 1],
                 past := s.past + {jti}, known := s.known + {family})
  {
    hide First;
  }

  lemma OpensAsLogin(st: Settings, s: Sys, s1: Sys, p: Pid, job: Job, jti: Jti, secret: nat, family: Family)
    requires FreeForLogin(s, p, jti, family) && job.Login?
    requires s1 == SetPc(s, p, Holding(job, job.user), map[]).(locks := map[Bucket(job.user) := p])
    ensures Step(st, s1, OpenFamily(p, jti, secret, family),
                 Midway(st, s, p, job, jti, secret, family, Opened(job, job.user)))
  {
    hide NewRow;
    assert s1.txns[p].writes[jti := First(st, s, job.user, jti, secret, family)]
        == map[jti := First(st, s, job.user, jti, secret, family)];
  }

  lemma ListsItself(st: Settings, s: Sys, p: Pid, job: Job, jti: Jti, secret: nat, family: Family)
    requires st.Valid() && job.Login?
    requires ActiveFamilies(s.rows[jti := First(st, s, job.user, jti, secret, family)], job.user, s.clock) == {family}
    ensures var pc := Revoking(job, job.user, Kept(st, [family]), [], s.clock);
      Step(st, Midway(st, s, p, job, jti, secret, family, Opened(job, job.user)), ListFamilies(p, [family]),
           Midway(st, s, p, job, jti, secret, family, pc))
  {
    var n := First(st, s, job.user, jti, secret, family);
    hide ActiveFamilies, First, Kept, Midway;
    SingleListing(s.rows[jti := n], job.user, s.clock, family);
    hide IsListing;
    OneWrite(s.rows, jti, n);
    MidwayMoves(st, s, p, job, jti, secret, family, Opened(job, job.user),
                Revoking(job, job.user, Kept(st, [family]), [], s.clock));
    hide View, SetPc;
  }

  lemma MidwayMoves(st: Settings, s: Sys, p: Pid, job: Job, jti: Jti, secret: nat, family: Family, pc: Pc, next: Pc)
    requires !IsToken(job)
    ensures var mid := Midway(st, s, p, job, jti, secret, family, pc);
      && p in mid.txns && mid.txns[p] == Txn(pc, map[jti := First(st, s, job.user, jti, secret, family)])
      && mid.rows == s.rows && mid.clock == s.clock
      && Midway(st, s, p, job, jti, secret, family, next) == SetPc(mid, p, next, mid.txns[p].writes)
  {
    hide First;
  }

  lemma SingleListing(t: Table, user: int, now: Time, family: Family)
    requires ActiveFamilies(t, user, now) == {family}
    ensures IsListing(t, user, now, [family])
  {
    hide IsRecency, ActiveFamilies;
  }

  lemma EmptyListing(t: Table, user: int, now: Time)
    requires ActiveFamilies(t, user, now) == {}
    ensures IsListing(t, user, now, [])
  {
    hide IsRecency, ActiveFamilies;
  }

  lemma RevokesNothing(st: Settings, s: Sys, p: Pid, job: Job, jti: Jti, secret: nat, family: Family)
    requires job.Login?
    ensures var pc := Revoking(job, job.user, Kept(st, [family]), [], s.clock);
      Step(st, Midway(st, s, p, job, jti, secret, family, pc), RevokeNext(p),
           Midway(st, s, p, job, jti, secret, family, Finished(Some(job.user), LoggedIn)))
  {
    hide First, Kept;
  }

  /** A login of a user who has no other active family. */
  lemma LoginRuns(st: Settings, s: Sys, p: Pid, job: Job, jti: Jti, secret: nat, family: Family)
    returns (states: seq<Sys>, acts: seq<Action>)
    requires st.Valid() && FreeForLogin(s, p, jti, family) && job.Login? && Verifies(s, job)
    requires ActiveFamilies(s.rows[jti := First(st, s, job.user, jti, secret, family)], job.user, s.clock) == {family}
    ensures IsPath(st, states, acts) && states[0] == s && Last(states) == WithLogin(st, s, job, jti, secret, family)
  {
    hide ActiveFamilies, First, Kept, Midway, Step, IsPath, WithLogin;
    states, acts := UpToTheLock(st, s, p, job);
    OpensAsLogin(st, s, Last(states), p, job, jti, secret, family);
    ListsItself(st, s, p, job, jti, secret, family);
    RevokesNothing(st, s, p, job, jti, secret, family);
    CommitsMidway(st, s, p, job, jti, secret, family);
    var pc := Revoking(job, job.user, Kept(st, [family]), [], s.clock);
    states, acts := Then(st, states, acts, OpenFamily(p, jti, secret, family),
                         Midway(st, s, p, job, jti, secret, family, Opened(job, job.user)));
    states, acts := Then(st, states, acts, ListFamilies(p, [family]), Midway(st, s, p, job, jti, secret, family, pc));
    states, acts := Then(st, states, acts, RevokeNext(p),
                         Midway(st, s, p, job, jti, secret, family, Finished(Some(job.user), LoggedIn)));
    states, acts := Then(st, states, acts, Commit(p), WithLogin(st, s, job, jti, secret, family));
  }

  lemma OpensAsChange(st: Settings, s: Sys, s1: Sys, p: Pid, job: Job, jti: Jti, secret: nat, family: Family)
    requires FreeForLogin(s, p, jti, family) && job.ChangePassword?
    requires s1 == SetPc(s, p, Revoking(job, job.user, {}, [], s.clock), map[])
                   .(locks := map[Bucket(job.user) := p])
    ensures Step(st, s1, OpenFamily(p, jti, secret, family),
                 Midway(st, s, p, job, jti, secret, family,
                        Finished(Some(job.user), Changed(job.user, family, s.clock))))
  {
    hide NewRow;
    assert s1.txns[p].writes[jti := First(st, s, job.user, jti, secret, family)]
        == map[jti := First(st, s, job.user, jti, secret, family)];
  }

  lemma ListsNothing(st: Settings, s: Sys, s0: Sys, p: Pid, job: Job) returns (s1: Sys)
    requires job.ChangePassword? && ActiveFamilies(s.rows, job.user, s.clock) == {}
    requires s0 == SetPc(s, p, Holding(job, job.user), map[]).(locks := map[Bucket(job.user) := p])
    ensures Step(st, s0, ListFamilies(p, []), s1)
    ensures s1 == SetPc(s, p, Revoking(job, job.user, {}, [], s.clock), map[])
                  .(locks := map[Bucket(job.user) := p])
  {
    hide ActiveFamilies, IsListing;
    EmptyListing(s.rows, job.user, s.clock);
    assert View(s.rows, map[]) == s.rows;
    var locks, pc := map[Bucket(job.user) := p], Revoking(job, job.user, {}, [], s.clock);
    s1 := SetPc(s0, p, pc, map[]);
    PcSetTwice(s, p, Holding(job, job.user), pc, map[], locks);
    hide View, SetPc;
  }

  lemma PcSetTwice(s: Sys, p: Pid, pc: Pc, next: Pc, w: Table, locks: map<nat, Pid>)
    ensures var s1 := SetPc(s, p, pc, w).(locks := locks);
      && SetPc(s1, p, next, w) == SetPc(s, p, next, w).(locks := locks)
      && p in s1.txns && s1.txns[p] == Txn(pc, w) && s1.rows == s.rows && s1.clock == s.clock
  {
  }

  /** A change of password of a user without an active family. */
  lemma ChangeRuns(st: Settings, s: Sys, p: Pid, job: Job, jti: Jti, secret: nat, family: Family)
    returns (states: seq<Sys>, acts: seq<Action>)
    requires FreeForLogin(s, p, jti, family) && job.ChangePassword? && Verifies(s, job)
    requires ActiveFamilies(s.rows, job.user, s.clock) == {}
    ensures IsPath(st, states, acts) && states[0] == s && acts != [] && acts[|acts| - 1] == Commit(p)
    ensures Last(states) == WithLogin(st, s, job, jti, secret, family)
    ensures states[|acts| - 1].txns
         == s.txns[p := Txn(Finished(Some(job.user), Changed(job.user, family, s.clock)),
                            map[jti := First(st, s, job.user, jti, secret, family)])]
    ensures states[|acts| - 1].known == s.known
    ensures states[|acts| - 1].origins == s.origins[family := Origin(job.user, s.clock)]
  {
    hide First, IsPath, WithLogin, Step, ActiveFamilies;
    states, acts := UpToTheLock(st, s, p, job);
    var s1 := ListsNothing(st, s, Last(states), p, job);
    states, acts := Then(st, states, acts, ListFamilies(p, []), s1);
    var s2 := Midway(st, s, p, job, jti, secret, family, Finished(Some(job.user), Changed(job.user, family, s.clock)));
    OpensAsChange(st, s, s1, p, job, jti, secret, family);
    states, acts := Then(st, states, acts, OpenFamily(p, jti, secret, family), s2);
    CommitsMidway(st, s, p, job, jti, secret, family);
    states, acts := Then(st, states, acts, Commit(p), WithLogin(st, s, job, jti, secret, family));
  }

  // ---------- Two runs with a late refresh ----------

  const LATE := Refresh(1, 11, 299)

  /** User 7 has logged in at 0 and presented the token at 299, one second before it expires; the next
      statement of that refresh has had to wait until after 301. */
  ghost predicate LateState(st: Settings, s: Sys) {
    && s.rows == map[1 := NewRow(st, 0, 1, 10, 7, 11, 0, st.absolute)] && s.clock == 301 && s.enabled == {7}
    && s.txns == map[1 := Txn(Begun(LATE), map[])] && s.locks == map[] && s.issued == map[1 := 10]
    && s.origins == map[10 := Origin(7, 0)] && s.known == {10} && s.rotated == [] && s.passwords == map[]
  }

  lemma LateStart(st: Settings) returns (states: seq<Sys>, acts: seq<Action>)
    requires st.Valid() && st.idle == 300
    ensures IsRun(st, states, acts) && LateState(st, Last(states))
  {
    var s0 := Sys(map[], 0, 0, {7}, map[], map[], map[], map[], map[], map[], {}, {}, []);
    var n := First(st, s0, 7, 1, 11, 10);
    assert ActiveFamilies(s0.rows[1 := n], 7, 0) == {10} by { assert Active(s0.rows[1 := n][1], 7, 0); }
    states, acts := LoginRuns(st, s0, 0, Login(7, 0), 1, 11, 10);
    hide IsPath, ActiveFamilies, NewRow;
    var s1 := WithLogin(st, s0, Login(7, 0), 1, 11, 10);
    var s2, s3 := s1.(clock := 299), SetPc(s1.(clock := 299), 1, Begun(LATE), map[]);
    states, acts := Then(st, states, acts, Tick(299), s2);
    states, acts := Then(st, states, acts, Begin(1, LATE), s3);
    states, acts := Then(st, states, acts, Tick(301), s3.(clock := 301));
    PathIsRun(st, states, acts);
  }

  lemma PathIsRun(st: Settings, states: seq<Sys>, acts: seq<Action>)
    requires IsPath(st, states, acts) && Init(states[0])
    ensures IsRun(st, states, acts)
  {
  }

  lemma JoinRun(st: Settings, states: seq<Sys>, acts: seq<Action>, more: seq<Sys>, moves: seq<Action>)
    requires IsRun(st, states, acts) && IsPath(st, more, moves) && Last(states) == more[0]
    ensures IsRun(st, states + more[1..], acts + moves) && Last(states + more[1..]) == Last(more)
  {
    Join(st, states, acts, more, moves);
    hide Step;
  }

  /** The first session has run out by now, and the other family has come in the meantime. */
  lemma LateGoesOn(st: Settings, s: Sys, job: Job, s1: Sys)
    requires st.idle == 300 && st.absolute > 301 && LateState(st, s)
    requires !IsToken(job) && job.user == 7 && s1 == WithLogin(st, s, job, 2, 22, 20)
    ensures ActiveFamilies(s.rows, 7, 301) == {} && FreeForLogin(s, 2, 2, 20)
    ensures ActiveFamilies(s.rows[2 := First(st, s, 7, 2, 22, 20)], 7, 301) == {20}
    ensures Waiting(s1, 1) && s1.txns[1].pc.job == LATE && s1.clock == 301 && s1.rotated == []
    ensures 3 !in s1.issued && 3 !in s1.rows && s1.rows[1].user in s1.enabled
    ensures var t := Rotate(st, s1.rows, 1, s1.nextId, 3, 33, 299, 301);
      && t.Keys == {1, 2, 3} && t[1].revokedAt.Some?
      && Active(t[2], 7, 301) && t[2].family == 20 && Active(t[3], 7, 301) && t[3].family == 10
  {
    assert Active(s.rows[2 := First(st, s, 7, 2, 22, 20)][2], 7, 301);
  }

  /** The bound on sessions does not survive a late refresh. With one session allowed, the user logs in
      again at 301, when the first session has run out; then the refresh goes on, and the user ends with
      two active families. */
  lemma LateRotationBreaksTheSessionBound() returns (st: Settings, states: seq<Sys>, acts: seq<Action>)
    ensures st.Valid() && st.maxSessions == 1 && IsRun(st, states, acts)
    ensures var s := Last(states);
      ActiveFamilies(s.rows, 7, s.clock) == {10, 20} && |ActiveFamilies(s.rows, 7, s.clock)| == 2
  {
    st := Settings(300, 1000, 1);
    states, acts := LateStart(st);
    var s, s1 := Last(states), WithLogin(st, Last(states), Login(7, 0), 2, 22, 20);
    LateGoesOn(st, s, Login(7, 0), s1);
    hide IsRun, IsPath, WithLogin, First, ActiveFamilies, Waiting, Rotate;
    var more, moves := LoginRuns(st, s, 2, Login(7, 0), 2, 22, 20);
    JoinRun(st, states, acts, more, moves);
    states, acts := states + more[1..], acts + moves;
    more, moves := RefreshRunsThrough(st, s1, 1, 3, 33);
    JoinRun(st, states, acts, more, moves);
    states, acts := states + more[1..], acts + moves;
    TwoActive(Last(states).rows, 301);
  }

  lemma TwoActive(t: Table, now: Time)
    requires t.Keys == {1, 2, 3} && t[1].revokedAt.Some?
    requires Active(t[2], 7, now) && t[2].family == 20 && Active(t[3], 7, now) && t[3].family == 10
    ensures ActiveFamilies(t, 7, now) == {10, 20} && |ActiveFamilies(t, 7, now)| == 2
  {
  }

  /** Nor does the finality of a change of password: it commits at step c, and afterwards the refresh
      renews the family that the user had before. */
  lemma LateRotationSurvivesPasswordChange() returns (st: Settings, states: seq<Sys>, acts: seq<Action>, c: nat)
    ensures st.Valid() && IsRun(st, states, acts) && c < |acts| && acts[c] == Commit(2) && 2 in states[c].txns
    ensures states[c].txns[2].pc == Finished(Some(7), Changed(7, 20, 301)) && 10 in states[c].known
    ensures states[c + 1].rotated == [] && Last(states).rotated == [1]
    ensures var t := Last(states).rows; 3 in t && t[3].family == 10 && Active(t[3], 7, 301)
  {
    st := Settings(300, 1000, 5);
    states, acts := LateStart(st);
    var s, s1 := Last(states), WithLogin(st, Last(states), ChangePassword(7, 0), 2, 22, 20);
    LateGoesOn(st, s, ChangePassword(7, 0), s1);
    var more, moves := ChangeRuns(st, s, 2, ChangePassword(7, 0), 2, 22, 20);
    hide IsRun, IsPath, WithLogin, First, ActiveFamilies, Waiting, Rotate;
    c := |acts| + |moves| - 1;
    JoinRun(st, states, acts, more, moves);
    RunLengths(st, states, acts, more, moves);
    states, acts := states + more[1..], acts + moves;
    var rest, last := RefreshRunsThrough(st, s1, 1, 3, 33);
    JoinRun(st, states, acts, rest, last);
    RunLengths(st, states, acts, rest, last);
    states, acts := states + rest[1..], acts + last;
  }

  lemma RunLengths(st: Settings, states: seq<Sys>, acts: seq<Action>, more: seq<Sys>, moves: seq<Action>)
    requires IsRun(st, states, acts) && IsPath(st, more, moves) && Last(states) == more[0]
    ensures |states| == |acts| + 1 && |more| == |moves| + 1
    ensures forall i | 0 <= i < |more| :: (states + more[1..])[|acts| + i] == more[i]
    ensures forall i | 0 <= i < |states| :: (states + more[1..])[i] == states[i]
  {
  }
}
