/** Any number of sessions run login, refresh, logout and change of password at once, one SQL
    statement at a time. Each runs in a transaction whose writes nobody else sees until it commits
    (READ COMMITTED); it may roll back at any point. A user's changes are serialised by the row lock
    of the user's bucket. Cleanup takes no such lock: its DELETE waits only for rows that an open
    transaction holds.

    Assumed: the clock does not go back, uuids are fresh, row ids increase. */
module RefreshConcurrent {
  import opened Wrappers
  import opened RefreshTable
  import opened RefreshService

  type Pid = nat

  const BUCKETS := 4096

  /** `refresh_user_lock_name`: one lock row for each bucket. */
  function Bucket(user: int): nat { user % BUCKETS }

  datatype Job =
    | Refresh(jti: Jti, secret: nat, checked: Time)   // `checked` is read before anything else
    | Logout(jti: Jti, secret: nat)
    | Login(user: int, password: nat)            // the password that is presented
    | ChangePassword(user: int, password: nat)

  datatype Result =
    | Invalid
    | Reused(from: Jti, family: Family)
    | Renewed(from: Jti)
    | Denied(from: Jti, family: Family)     // rotated, then revoked: the user is gone or disabled
    | Ended(from: Jti, family: Family)
    | LoggedIn
    | Changed(user: int, family: Family, listedAt: Time)

  datatype Pc =
    | Begun(job: Job)
    | Known(job: Job, user: int)                       // user id read without a lock
    | Holding(job: Job, user: int)                     // bucket lock held
    | Checked(job: Job, row: Row)                      // row locked, secret verified
    | Inserted(checked: Time, row: Row, next: Jti)     // successor inserted
    | Marked(row: Row)                                 // old row marked as rotated
    | Opened(job: Job, user: int)                      // login: new family inserted
    | Revoking(job: Job, user: int, keep: set<Family>, queue: seq<Family>, listedAt: Time)
    | Finished(owner: Option<int>, result: Result)     // nothing left but to commit

  datatype Txn = Txn(pc: Pc, writes: Table)

  datatype Sys = Sys(
    rows: Table,                      // committed
    nextId: nat, clock: Time, enabled: set<int>,
    passwords: map<int, nat>,         // a password is the number of changes that came before it
    locks: map<nat, Pid>,             // bucket -> transaction that holds its row
    txns: map<Pid, Txn>,              // open transactions
    // history
    origins: map<Family, Origin>,
    openedWith: map<Family, nat>,     // the password with which the family was opened
    issued: map<Jti, Family>,
    past: set<Jti>,                   // tokens that have been committed at some time
    known: set<Family>,              // families that have been committed at some time
    rotated: seq<Jti>)                // tokens whose rotation has been committed, in order

  function View(rows: Table, writes: Table): Table { rows + writes }

  function Owner(pc: Pc): Option<int> {
    match pc
    case Begun(_) => None
    case Known(_, _) => None
    case Holding(_, u) => Some(u)
    case Checked(_, row) => Some(row.user)
    case Inserted(_, row, _) => Some(row.user)
    case Marked(row) => Some(row.user)
    case Opened(_, u) => Some(u)
    case Revoking(_, u, _, _, _) => Some(u)
    case Finished(o, _) => o
  }

  function Pinned(pc: Pc): set<Jti> {
    match pc
    case Checked(_, row) => {row.jti}
    case Inserted(_, row, _) => {row.jti}
    case Marked(row) => {row.jti}
    case Finished(_, Reused(j, _)) => {j}
    case Finished(_, Ended(j, _)) => {j}
    case _ => {}
  }

  /** UPDATE ... SET revoked_at inside a transaction. */
  function RevokeIn(rows: Table, writes: Table, family: Family, reason: Reason, now: Time): Table {
    var view := View(rows, writes);
    writes + map j | j in view && view[j].family == family && view[j].revokedAt.None? :: Revoked(view[j], reason, now)
  }

  // ---------- Steps ----------

  datatype Action =
    | Tick(clock: Time)
    | SetUser(user: int, on: bool)
    | Begin(p: Pid, job: Job)
    | ReadUser(p: Pid)
    | TakeLock(p: Pid)
    | ReadRow(p: Pid)
    | Reject(p: Pid)
    | InsertNext(p: Pid, next: Jti, secret: nat)
    | MarkOld(p: Pid)
    | CheckUser(p: Pid)
    | OpenFamily(p: Pid, jti: Jti, secret: nat, family: Family)
    | ListFamilies(p: Pid, listing: seq<Family>)
    | RevokeNext(p: Pid)
    | Commit(p: Pid)
    | Abort(p: Pid)
    | Cleanup(cutoff: Time)

  function SetPc(s: Sys, p: Pid, pc: Pc, writes: Table): Sys {
    s.(txns := s.txns[p := Txn(pc, writes)])
  }

  function Release(s: Sys, p: Pid): Sys {
    s.(txns := s.txns - {p}, locks := map b | b in s.locks && s.locks[b] != p :: s.locks[b])
  }

  predicate IsToken(job: Job) { job.Refresh? || job.Logout? }

  predicate LoginOf(job: Job, user: int) { job.Login? && job.user == user }

  predicate ChangeOf(job: Job, user: int) { job.ChangePassword? && job.user == user }

  function Password(s: Sys, user: int): nat { if user in s.passwords then s.passwords[user] else 0 }

  /** An active user with the right password; a failed check ends the transaction. */
  predicate Verifies(s: Sys, job: Job)
    requires !IsToken(job)
  {
    job.user in s.enabled && job.password == Password(s, job.user)
  }

  ghost predicate StepReadUser(s: Sys, p: Pid, s': Sys) {
    && p in s.txns && s.txns[p].pc.Begun?
    && var job := s.txns[p].pc.job;
       s' == if !IsToken(job)
             then SetPc(s, p, if Verifies(s, job) then Known(job, job.user) else Finished(None, Invalid), map[])
             else if job.jti in s.rows then SetPc(s, p, Known(job, s.rows[job.jti].user), map[])
             else SetPc(s, p, Finished(None, Invalid), map[])
  }

  ghost predicate StepTakeLock(s: Sys, p: Pid, s': Sys) {
    && p in s.txns && s.txns[p].pc.Known?
    && var pc := s.txns[p].pc;
       && Bucket(pc.user) !in s.locks
       && s' == SetPc(s, p, Holding(pc.job, pc.user), map[]).(locks := s.locks[Bucket(pc.user) := p])
  }

  ghost predicate StepReadRow(s: Sys, p: Pid, s': Sys) {
    && p in s.txns && s.txns[p].pc.Holding? && IsToken(s.txns[p].pc.job)
    && var pc := s.txns[p].pc;
       s' == if pc.job.jti in s.rows && s.rows[pc.job.jti].secret == pc.job.secret
             then SetPc(s, p, Checked(pc.job, s.rows[pc.job.jti]), map[])
             else SetPc(s, p, Finished(Some(pc.user), Invalid), map[])
  }

  /** The outcomes of the checks on the locked row that issue nothing, and the body of a logout. */
  ghost predicate StepReject(s: Sys, p: Pid, s': Sys) {
    && p in s.txns && s.txns[p].pc.Checked?
    && var pc := s.txns[p].pc; var w := s.txns[p].writes;
       if pc.job.Refresh? then
         && !Renewable(pc.row, pc.job.checked)
         && s' == (if IsReuse(pc.row)
                   then SetPc(s, p, Finished(Some(pc.row.user), Reused(pc.row.jti, pc.row.family)),
                              RevokeIn(s.rows, w, pc.row.family, ReuseDetected, pc.job.checked))
                   else SetPc(s, p, Finished(Some(pc.row.user), Invalid), w))
       else
         s' == SetPc(s, p, Finished(Some(pc.row.user), Ended(pc.row.jti, pc.row.family)),
                     RevokeIn(s.rows, w, pc.row.family, LoggedOut, s.clock))
  }

  ghost predicate StepInsertNext(st: Settings, s: Sys, p: Pid, next: Jti, secret: nat, s': Sys) {
    && p in s.txns && s.txns[p].pc.Checked? && s.txns[p].pc.job.Refresh?
    && next !in s.issued
    && var pc := s.txns[p].pc; var row := pc.row;
       && Renewable(row, pc.job.checked)
       && var n := NewRow(st, s.nextId, next, row.family, row.user, secret, s.clock, row.absoluteAt);
          s' == SetPc(s, p, Inserted(pc.job.checked, row, next), s.txns[p].writes[next := n])
                .(nextId := s.nextId + 1, issued := s.issued[next := row.family])
  }

  ghost predicate StepMarkOld(s: Sys, p: Pid, s': Sys) {
    && p in s.txns && s.txns[p].pc.Inserted?
    && var pc := s.txns[p].pc;
       s' == SetPc(s, p, Marked(pc.row), s.txns[p].writes[pc.row.jti := MarkedRotated(pc.row, pc.next, pc.checked)])
  }

  ghost predicate StepCheckUser(s: Sys, p: Pid, s': Sys) {
    && p in s.txns && s.txns[p].pc.Marked?
    && var row := s.txns[p].pc.row; var w := s.txns[p].writes;
       s' == if row.user in s.enabled
             then SetPc(s, p, Finished(Some(row.user), Result.Renewed(row.jti)), w)
             else SetPc(s, p, Finished(Some(row.user), Denied(row.jti, row.family)),
                        RevokeIn(s.rows, w, row.family, LoggedOut, s.clock))
  }

  /** A login opens its family first; a change of password does so after its revocations. */
  ghost predicate StepOpenFamily(st: Settings, s: Sys, p: Pid, jti: Jti, secret: nat, family: Family, s': Sys) {
    && p in s.txns && jti !in s.issued && family !in s.origins
    && var pc := s.txns[p].pc;
       && ((pc.Holding? && pc.job.Login?) || (pc.Revoking? && pc.job.ChangePassword? && pc.queue == []))
       && var n := NewRow(st, s.nextId, jti, family, pc.user, secret, s.clock, s.clock + st.absolute);
          s' == SetPc(s, p, if pc.Holding? then Opened(pc.job, pc.user)
                            else Finished(Some(pc.user), Changed(pc.user, family, pc.listedAt)),
                      s.txns[p].writes[jti := n])
                .(nextId := s.nextId + 1, issued := s.issued[jti := family],
                  origins := s.origins[family := Origin(pc.user, s.clock)],
                  openedWith := s.openedWith[family := pc.job.password])
  }

  ghost predicate StepListFamilies(st: Settings, s: Sys, p: Pid, listing: seq<Family>, s': Sys) {
    && p in s.txns
    && var pc := s.txns[p].pc; var w := s.txns[p].writes;
       if pc.Opened? then
         && IsListing(View(s.rows, w), pc.user, s.clock, listing)
         && s' == SetPc(s, p, Revoking(pc.job, pc.user, Kept(st, listing), Overflow(st, listing), s.clock), w)
       else
         && pc.Holding? && pc.job.ChangePassword?
         && IsListing(View(s.rows, w), pc.user, s.clock, listing)
         && s' == SetPc(s, p, Revoking(pc.job, pc.user, {}, listing, s.clock), w)
  }

  function Kept(st: Settings, listing: seq<Family>): set<Family> {
    ToSet(if |listing| <= st.maxSessions then listing else listing[..st.maxSessions])
  }

  ghost predicate StepRevokeNext(s: Sys, p: Pid, s': Sys) {
    && p in s.txns && s.txns[p].pc.Revoking?
    && var pc := s.txns[p].pc; var w := s.txns[p].writes;
       if pc.queue != [] then
         s' == SetPc(s, p, pc.(queue := pc.queue[1..]),
                     RevokeIn(s.rows, w, pc.queue[0],
                              if pc.job.Login? then ConcurrencyLimit else PasswordChanged, pc.listedAt))
       else pc.job.Login? && s' == SetPc(s, p, Finished(Some(pc.user), LoggedIn), w)
  }

  function NewlyRotated(r: Result): seq<Jti> {
    if r.Renewed? || r.Denied? then [r.from] else []
  }

  function NewPasswords(s: Sys, r: Result): map<int, nat> {
    if r.Changed? then s.passwords[r.user := Password(s, r.user) + 1] else s.passwords
  }

  ghost predicate StepCommit(s: Sys, p: Pid, s': Sys) {
    && p in s.txns && s.txns[p].pc.Finished?
    && var w := s.txns[p].writes;
       s' == Release(s, p).(rows := View(s.rows, w), past := s.past + w.Keys,
                            known := s.known + set j | j in w :: w[j].family,
                            passwords := NewPasswords(s, s.txns[p].pc.result),
                            rotated := s.rotated + NewlyRotated(s.txns[p].pc.result))
  }

  ghost predicate Unaffected(s: Sys, x: Txn, cutoff: Time) {
    && (forall j | j in Pinned(x.pc) + x.writes.Keys && j in s.rows :: s.rows[j].expiresAt > cutoff)
    && (forall j | j in x.writes :: x.writes[j].expiresAt > cutoff)
  }

  /** The DELETE waits for every row that a transaction has locked or written. */
  ghost predicate StepCleanup(s: Sys, cutoff: Time, s': Sys) {
    && (forall p | p in s.txns :: Unaffected(s, s.txns[p], cutoff))
    && s' == s.(rows := DeleteExpired(s.rows, cutoff))
  }

  ghost predicate Step(st: Settings, s: Sys, a: Action, s': Sys) {
    match a
    case Tick(c) => c >= s.clock && s' == s.(clock := c)
    case SetUser(u, on) => s' == s.(enabled := if on then s.enabled + {u} else s.enabled - {u})
    case Begin(p, job) =>
      p !in s.txns && (job.Refresh? ==> job.checked == s.clock) && s' == SetPc(s, p, Begun(job), map[])
    case ReadUser(p) => StepReadUser(s, p, s')
    case TakeLock(p) => StepTakeLock(s, p, s')
    case ReadRow(p) => StepReadRow(s, p, s')
    case Reject(p) => StepReject(s, p, s')
    case InsertNext(p, next, secret) => StepInsertNext(st, s, p, next, secret, s')
    case MarkOld(p) => StepMarkOld(s, p, s')
    case CheckUser(p) => StepCheckUser(s, p, s')
    case OpenFamily(p, jti, secret, family) => StepOpenFamily(st, s, p, jti, secret, family, s')
    case ListFamilies(p, listing) => StepListFamilies(st, s, p, listing, s')
    case RevokeNext(p) => StepRevokeNext(s, p, s')
    case Commit(p) => StepCommit(s, p, s')
    case Abort(p) => p in s.txns && s' == Release(s, p)
    case Cleanup(cutoff) => StepCleanup(s, cutoff, s')
  }

  ghost predicate Init(s: Sys) {
    s.rows == map[] && s.locks == map[] && s.txns == map[] && s.origins == map[] && s.openedWith == map[]
    && s.issued == map[]
    && s.past == {} && s.known == {} && s.rotated == []
  }

  // ---------- The invariant ----------

  ghost predicate Stored(s: Sys, j: Jti, r: Row) {
    && j in s.issued && s.issued[j] == r.family
    && r.family in s.origins && s.origins[r.family].user == r.user
    && r.id < s.nextId && r.issuedAt <= s.clock
  }

  /** The rows as they will be once the transaction has finished the rotation it is in. */
  function Settled(rows: Table, x: Txn): Table {
    var view := View(rows, x.writes);
    if x.pc.Inserted? && x.pc.row.jti in view
    then MarkRotated(view, x.pc.row.jti, x.pc.next, x.pc.checked) else view
  }

  /** The transaction is rotating a token of the family. */
  predicate RotatesIn(s: Sys, pc: Pc, f: Family) {
    match pc
    case Inserted(_, row, _) => row.family == f
    case Marked(row) => row.family == f
    case Finished(_, Renewed(j)) => j in s.issued && s.issued[j] == f
    case Finished(_, Denied(j, _)) => j in s.issued && s.issued[j] == f
    case _ => false
  }

  /** A pending write belongs to the transaction's user. It changes a committed row only by
      revoking it, and adds to a committed family only by a rotation. */
  ghost predicate WriteOk(s: Sys, x: Txn, j: Jti) requires j in x.writes {
    var r := x.writes[j];
    && Stored(s, j, r)
    && Owner(x.pc) == Some(r.user)
    && (j in s.rows ==> s.rows[j].revokedAt.None? && r.revokedAt.Some?)
    && (j !in s.rows ==> j !in s.past && (r.family in s.known ==> RotatesIn(s, x.pc, r.family)))
  }

  ghost predicate Names(s: Sys, job: Job, user: int) {
    if IsToken(job) then job.jti in s.issued && s.issued[job.jti] in s.origins
        && s.origins[s.issued[job.jti]].user == user
    else job.user == user
  }

  ghost predicate IsPinned(s: Sys, row: Row) { row.jti in s.rows && s.rows[row.jti] == row }

  /** Every row of the user outside `live` is revoked or had expired by `now`. */
  ghost predicate Closed(t: Table, user: int, now: Time, live: set<Family>) {
    forall j | j in t && t[j].user == user && t[j].family !in live :: t[j].revokedAt.Some? || t[j].expiresAt <= now
  }

  ghost predicate Rotating(s: Sys, x: Txn, j: Jti) {
    && j in s.rows && s.rows[j].revokedAt.None?
    && j in x.writes && x.writes[j].revokedAt.Some?
  }

  ghost predicate Owns(s: Sys, x: Txn, f: Family) {
    f in s.origins && Owner(x.pc) == Some(s.origins[f].user)
  }

  ghost predicate ResultOk(s: Sys, x: Txn, r: Result) {
    var view := View(s.rows, x.writes);
    match r
    case Invalid => x.writes == map[]
    case Reused(_, f) => Owns(s, x, f) && f in s.known && Dead(view, f)
    case Renewed(j) => Rotating(s, x, j)
    case Denied(j, f) => Rotating(s, x, j) && Owns(s, x, f) && f in s.known && Dead(view, f)
    case Ended(_, f) => Owns(s, x, f) && f in s.known && Dead(view, f)
    case LoggedIn => true
    case Changed(u, f, now) => Owner(x.pc) == Some(u) && now <= s.clock && Closed(view, u, now, {f})
  }

  ghost predicate PcOk(s: Sys, x: Txn) {
    match x.pc
    case Begun(job) => true
    case Known(job, u) => Names(s, job, u)
    case Holding(job, u) => Names(s, job, u) && x.writes == map[]
    case Checked(job, row) => IsToken(job) && IsPinned(s, row) && job.jti == row.jti && x.writes == map[]
    case Inserted(c, row, next) => IsPinned(s, row) && Renewable(row, c) && x.writes.Keys == {next} && next != row.jti
    case Marked(row) => IsPinned(s, row) && Rotating(s, x, row.jti)
    case Opened(job, u) => LoginOf(job, u)
    case Revoking(job, u, _, queue, now) =>
      && (LoginOf(job, u) || ChangeOf(job, u))
      && (forall f | f in queue :: Owns(s, x, f)) && now <= s.clock
      && (job.ChangePassword? ==> Closed(View(s.rows, x.writes), u, now, ToSet(queue)))
    case Finished(o, r) => (o.None? ==> r.Invalid?) && ResultOk(s, x, r)
  }

  ghost predicate TxnOk(st: Settings, s: Sys, p: Pid, x: Txn) {
    && (Owner(x.pc).None? ==> x.writes == map[])
    && (Owner(x.pc).Some? ==> Bucket(Owner(x.pc).value) in s.locks && s.locks[Bucket(Owner(x.pc).value)] == p)
    && (forall j | j in x.writes :: WriteOk(s, x, j))
    && Inv(st, s.origins, Settled(s.rows, x))
    && PcOk(s, x)
  }

  ghost predicate TableOk(st: Settings, s: Sys) {
    && Inv(st, s.origins, s.rows)
    && (forall j | j in s.rows :: Stored(s, j, s.rows[j]) && j in s.past && s.rows[j].family in s.known)
    && (forall j | j in s.past :: j in s.issued)
    && (forall j | j in s.issued :: s.issued[j] in s.origins)
    && (forall f | f in s.known :: f in s.origins)
    && (forall i, k | 0 <= i < k < |s.rotated| :: s.rotated[i] != s.rotated[k])
    && (forall j | j in s.rotated :: j in s.past && (j in s.rows ==> s.rows[j].revokedAt.Some?))
  }

  ghost predicate SysOk(st: Settings, s: Sys) {
    && TableOk(st, s)
    && (forall p | p in s.txns :: TxnOk(st, s, p, s.txns[p]))
  }
}
