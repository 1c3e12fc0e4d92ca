/** What holds over whole runs of RefreshConcurrent, whatever the interleaving. */
module RefreshRuns {
  import opened Wrappers
  import opened RefreshTable
  import opened RefreshService
  import opened RefreshConcurrent
  import opened RefreshSafety
  import RefreshLaws

  ghost predicate IsRun(st: Settings, states: seq<Sys>, acts: seq<Action>) {
    && |states| == |acts| + 1
    && Init(states[0])
    && forall i | 0 <= i < |acts| :: Step(st, states[i], acts[i], states[i + 1])
  }

  lemma {:induction false} Reachable(st: Settings, states: seq<Sys>, acts: seq<Action>, i: nat)
    requires IsRun(st, states, acts) && i < |states|
    ensures SysOk(st, states[i])
  {
    if i > 0 {
      Reachable(st, states, acts, i - 1);
      StepKeeps(st, states[i - 1], acts[i - 1], states[i]);
    }
  }

  /** In every committed state a family has at most one unrevoked row, its rows form one path of
      rotations without a missing successor, and none outlives the login that opened it by more than
      the absolute lifetime; over the whole run each token's rotation is committed at most once. */
  lemma EveryStateIsSound(st: Settings, states: seq<Sys>, acts: seq<Action>, i: nat)
    requires IsRun(st, states, acts) && i < |states|
    ensures var s := states[i];
      && Inv(st, s.origins, s.rows)
      && (forall j, k | j in s.rows && k in s.rows && s.rows[j].family == s.rows[k].family
                        && s.rows[j].revokedAt.None? && s.rows[k].revokedAt.None? :: j == k)
      && (forall j | j in s.rows :: s.rows[j].family in s.origins
            && s.rows[j].expiresAt <= s.rows[j].absoluteAt == s.origins[s.rows[j].family].born + st.absolute)
      && (forall j | j in s.rows && s.rows[j].rotatedTo.Some? :: s.rows[j].rotatedTo.value in s.rows)
      && (forall m, n | 0 <= m < n < |s.rotated| :: s.rotated[m] != s.rotated[n])
  {
    hide Inv, Step;
    Reachable(st, states, acts, i);
    var s := states[i];
    forall j, k | j in s.rows && k in s.rows && s.rows[j].family == s.rows[k].family
                  && s.rows[j].revokedAt.None? && s.rows[k].revokedAt.None?
      ensures j == k
    {
      OneLiveRow(st, s.origins, s.rows, j, k);
    }
    forall j | j in s.rows
      ensures s.rows[j].family in s.origins
      ensures s.rows[j].expiresAt <= s.rows[j].absoluteAt == s.origins[s.rows[j].family].born + st.absolute
    {
      NoRowOutlivesItsLogin(st, s.origins, s.rows, j);
    }
    DeleteKeepsInv(st, s.origins, s.rows, 0);
  }

  /** Users share a lock exactly when their ids are congruent, so that there are at most 4096 lock rows, whatever the
      number of users. */
  lemma UsersShareALockExactlyWhen(u: int, v: int)
    ensures Bucket(u) == Bucket(v) <==> (u - v) % 4096 == 0
    ensures Bucket(u) < 4096
  {
  }

  // ---------- What never comes back ----------

  /** From s to a later s': a revoked row never changes again, a removed row never returns, a family
      that has lost its last unrevoked row stays so, and only tokens of live families are rotated. */
  ghost predicate Evolves(s: Sys, s': Sys) {
    && s.rows.Keys <= s.past <= s'.past && s.known <= s'.known
    && (forall j | j in s.issued :: j in s'.issued && s'.issued[j] == s.issued[j])
    && (forall j | j in s.rows && s.rows[j].revokedAt.Some? && j in s'.rows :: s'.rows[j] == s.rows[j])
    && (forall j | j in s.past && j !in s.rows :: j !in s'.rows)
    && (forall f | f in s.known && Dead(s.rows, f) :: Dead(s'.rows, f))
    && |s.rotated| <= |s'.rotated| && s'.rotated[..|s.rotated|] == s.rotated
    && (forall i | |s.rotated| <= i < |s'.rotated| ::
          && s'.rotated[i] in s'.issued
          && (s'.issued[s'.rotated[i]] in s.known ==> !Dead(s.rows, s'.issued[s'.rotated[i]])))
  }

  /** Only a commit and a cleanup change what is stored; any other step moves one transaction. */
  ghost predicate Moves(s: Sys, s': Sys, p: Pid) {
    && s'.rows == s.rows && s'.past == s.past && s'.known == s.known && s'.rotated == s.rotated && s'.clock == s.clock
    && s'.passwords == s.passwords
    && p in s'.txns && (forall q | q in s'.txns && q != p :: q in s.txns && s'.txns[q] == s.txns[q])
    && (forall f | f in s.origins :: f in s'.origins && s'.origins[f] == s.origins[f])
    && (forall f | f in s.origins && f in s.openedWith :: f in s'.openedWith && s'.openedWith[f] == s.openedWith[f])
    && (forall j | j in s.issued :: j in s'.issued && s'.issued[j] == s.issued[j])
  }

  lemma ReadUserMoves(s: Sys, p: Pid, s': Sys)
    requires StepReadUser(s, p, s')
    ensures Moves(s, s', p)
  {
    SetPcMoves(s, p);
    hide SetPc, Moves;
  }

  lemma SetPcMoves(s: Sys, p: Pid)
    ensures forall pc, w :: Moves(s, SetPc(s, p, pc, w), p)
  {
  }

  lemma TakeLockMoves(s: Sys, p: Pid, s': Sys)
    requires StepTakeLock(s, p, s')
    ensures Moves(s, s', p)
  {
  }

  lemma ReadRowMoves(s: Sys, p: Pid, s': Sys)
    requires StepReadRow(s, p, s')
    ensures Moves(s, s', p)
  {
    SetPcMoves(s, p);
    hide SetPc, Moves;
  }

  lemma RejectMoves(s: Sys, p: Pid, s': Sys)
    requires StepReject(s, p, s')
    ensures Moves(s, s', p)
  {
    SetPcMoves(s, p);
    hide SetPc, Moves;
  }

  lemma InsertNextMoves(st: Settings, s: Sys, p: Pid, next: Jti, secret: nat, s': Sys)
    requires StepInsertNext(st, s, p, next, secret, s')
    ensures Moves(s, s', p)
  {
  }

  lemma MarkOldMoves(s: Sys, p: Pid, s': Sys)
    requires StepMarkOld(s, p, s')
    ensures Moves(s, s', p)
  {
    SetPcMoves(s, p);
    hide SetPc, Moves;
  }

  lemma CheckUserMoves(s: Sys, p: Pid, s': Sys)
    requires StepCheckUser(s, p, s')
    ensures Moves(s, s', p)
  {
    SetPcMoves(s, p);
    hide SetPc, Moves;
  }

  lemma OpenFamilyMoves(st: Settings, s: Sys, p: Pid, jti: Jti, secret: nat, family: Family, s': Sys)
    requires StepOpenFamily(st, s, p, jti, secret, family, s')
    ensures Moves(s, s', p)
  {
  }

  lemma ListFamiliesMoves(st: Settings, s: Sys, p: Pid, listing: seq<Family>, s': Sys)
    requires StepListFamilies(st, s, p, listing, s')
    ensures Moves(s, s', p)
  {
    SetPcMoves(s, p);
    hide SetPc, Moves;
  }

  lemma RevokeNextMoves(s: Sys, p: Pid, s': Sys)
    requires StepRevokeNext(s, p, s')
    ensures Moves(s, s', p)
  {
    SetPcMoves(s, p);
    hide SetPc, Moves;
  }

  lemma StepMoves(st: Settings, s: Sys, a: Action, s': Sys, p: Pid)
    requires Step(st, s, a, s') && StepOf(a, p)
    ensures Moves(s, s', p)
  {
    hide Moves, StepReadUser, StepTakeLock, StepReadRow, StepReject, StepInsertNext, StepMarkOld, StepCheckUser,
         StepOpenFamily, StepListFamilies, StepRevokeNext;
    match a
    case Begin(_, job) => BeginMoves(st, s, p, job, s');
    case ReadUser(_) => ReadUserMoves(s, p, s');
    case TakeLock(_) => TakeLockMoves(s, p, s');
    case ReadRow(_) => ReadRowMoves(s, p, s');
    case Reject(_) => RejectMoves(s, p, s');
    case InsertNext(_, next, secret) => InsertNextMoves(st, s, p, next, secret, s');
    case MarkOld(_) => MarkOldMoves(s, p, s');
    case CheckUser(_) => CheckUserMoves(s, p, s');
    case OpenFamily(_, jti, secret, family) => OpenFamilyMoves(st, s, p, jti, secret, family, s');
    case ListFamilies(_, listing) => ListFamiliesMoves(st, s, p, listing, s');
    case RevokeNext(_) => RevokeNextMoves(s, p, s');
  }

  lemma BeginMoves(st: Settings, s: Sys, p: Pid, job: Job, s': Sys)
    requires Step(st, s, Begin(p, job), s')
    ensures Moves(s, s', p)
  {
  }

  ghost predicate StepOf(a: Action, p: Pid) {
    && (a.Begin? || a.ReadUser? || a.TakeLock? || a.ReadRow? || a.Reject? || a.InsertNext? || a.MarkOld?
        || a.CheckUser? || a.OpenFamily? || a.ListFamilies? || a.RevokeNext?)
    && a.p == p
  }

  lemma StepEvolves(st: Settings, s: Sys, a: Action, s': Sys)
    requires SysOk(st, s) && Step(st, s, a, s')
    ensures Evolves(s, s')
  {
    hide Inv, SysOk, StepReadUser, StepTakeLock, StepReadRow, StepReject, StepInsertNext, StepMarkOld, StepCheckUser,
         StepOpenFamily, StepListFamilies, StepRevokeNext, StepCommit, StepCleanup;
    StoredArePast(st, s);
    match a
    case Commit(p) => CommitEvolves(st, s, p, s');
    case Cleanup(cutoff) => CleanupEvolves(s, cutoff, s');
    case Tick(_) =>
    case SetUser(_, _) =>
    case Abort(_) =>
    case _ => StepMoves(st, s, a, s', a.p);
  }

  lemma StoredArePast(st: Settings, s: Sys)
    requires SysOk(st, s)
    ensures s.rows.Keys <= s.past
  {
    hide Inv;
  }

  lemma CleanupEvolves(s: Sys, cutoff: Time, s': Sys)
    requires StepCleanup(s, cutoff, s') && s.rows.Keys <= s.past
    ensures Evolves(s, s')
  {
  }

  lemma CommitEvolves(st: Settings, s: Sys, p: Pid, s': Sys)
    requires SysOk(st, s) && StepCommit(s, p, s')
    ensures Evolves(s, s')
  {
    hide Inv, SysOk, PcOk, WriteOk, TxnOk, TableOk;
    TheTxn(st, s, p);
    StoredArePast(st, s);
    CommitIsFresh(st, s, p, s.txns[p]);
    CommitRotates(st, s, p, s.txns[p]);
  }

  lemma CommitIsFresh(st: Settings, s: Sys, p: Pid, x: Txn)
    requires TableOk(st, s) && TxnOk(st, s, p, x) && x.pc.Finished?
    ensures forall j | j in x.writes && j in s.rows ::
              s.rows[j].revokedAt.None? && s.rows[j].family == x.writes[j].family
    ensures forall j | j in x.writes && j !in s.rows :: j !in s.past
    ensures forall j | j in x.writes && x.writes[j].family in s.known :: !Dead(s.rows, x.writes[j].family)
  {
    hide Inv;
    TxnOwnsWrites(st, s, p, x);
    forall j | j in x.writes
      ensures (j in s.rows ==> s.rows[j].revokedAt.None?) && (j !in s.rows ==> j !in s.past)
      ensures x.writes[j].family in s.known ==> !Dead(s.rows, x.writes[j].family)
    {
      assert WriteOk(s, x, j);
      if j !in s.rows && x.writes[j].family in s.known {
        StoredUser(st, s, x.pc.result.from);
      }
    }
  }

  lemma CommitRotates(st: Settings, s: Sys, p: Pid, x: Txn)
    requires TableOk(st, s) && TxnOk(st, s, p, x) && x.pc.Finished?
    ensures forall j | j in NewlyRotated(x.pc.result) :: j in s.issued && !Dead(s.rows, s.issued[j])
  {
    hide Inv;
    if NewlyRotated(x.pc.result) != [] { StoredUser(st, s, x.pc.result.from); }
  }

  lemma EvolvesTransitively(a: Sys, b: Sys, c: Sys)
    requires Evolves(a, b) && Evolves(b, c)
    ensures Evolves(a, c)
  {
    hide Dead;
    assert forall i | 0 <= i < |b.rotated| :: c.rotated[i] == b.rotated[i];
  }

  lemma {:induction false} RunEvolves(st: Settings, states: seq<Sys>, acts: seq<Action>, i: nat, k: nat)
    requires IsRun(st, states, acts) && i <= k < |states|
    ensures Evolves(states[i], states[k])
    decreases k
  {
    hide SysOk, Step, Dead;
    if i == k {
      Reachable(st, states, acts, i);
      StoredArePast(st, states[i]);
    } else {
      RunEvolves(st, states, acts, i, k - 1);
      Reachable(st, states, acts, k - 1);
      StepEvolves(st, states[k - 1], acts[k - 1], states[k]);
      EvolvesTransitively(states[i], states[k - 1], states[k]);
    }
  }

  /** Reuse detection, logout and the refusal of a disabled user are final: once the transaction has
      committed (a refresh commits although it answers with an error), the family never has an
      unrevoked row again and none of its tokens is rotated again. */
  lemma RefusalIsFinal(st: Settings, states: seq<Sys>, acts: seq<Action>, i: nat, k: nat, p: Pid, f: Family)
    requires IsRun(st, states, acts) && i < k < |states| && acts[i] == Commit(p)
    requires p in states[i].txns && states[i].txns[p].pc.Finished?
    requires var r := states[i].txns[p].pc.result;
             (r.Reused? || r.Ended? || r.Denied?) && r.family == f
    ensures Dead(states[k].rows, f)
    ensures forall m | |states[i + 1].rotated| <= m < |states[k].rotated| ::
              states[k].rotated[m] in states[k].issued && states[k].issued[states[k].rotated[m]] != f
  {
    hide Inv, TableOk, WriteOk, Dead;
    Reachable(st, states, acts, i);
    TheTxn(st, states[i], p);
    assert Step(st, states[i], acts[i], states[i + 1]);
    assert f in states[i + 1].known && Dead(states[i + 1].rows, f);
    RunEvolves(st, states, acts, i + 1, k);
  }

  // ---------- Change of password ----------

  /** The family's unrevoked rows had all expired by `n`. */
  ghost predicate Retired(s: Sys, f: Family, n: Time) {
    && f in s.known && n <= s.clock
    && (forall j | j in s.rows && s.rows[j].family == f :: s.rows[j].revokedAt.Some? || s.rows[j].expiresAt <= n)
  }

  /** The transaction may still renew the family: it is doing so, or its clock reading is older than
      the expiry of the unrevoked row that it presents. */
  ghost predicate MayRenewLate(s: Sys, x: Txn, f: Family) {
    match x.pc
    case Begun(job) => LateJob(s, job, f) && s.rows[job.jti].secret == job.secret
    case Known(job, _) => LateJob(s, job, f) && s.rows[job.jti].secret == job.secret
    case Holding(job, _) => LateJob(s, job, f) && s.rows[job.jti].secret == job.secret
    case Checked(job, _) => LateJob(s, job, f)
    case _ => RotatesIn(s, x.pc, f)
  }

  ghost predicate LateJob(s: Sys, job: Job, f: Family) {
    && job.Refresh? && job.jti in s.rows && s.rows[job.jti].family == f && s.rows[job.jti].revokedAt.None?
    && job.checked < s.rows[job.jti].expiresAt
  }

  /** Every unrevoked row of the family in s' is one in s. */
  ghost predicate NoNewLive(s: Sys, s': Sys, f: Family) {
    forall j | j in s'.rows && s'.rows[j].family == f && s'.rows[j].revokedAt.None? ::
      j in s.rows && s.rows[j] == s'.rows[j]
  }

  ghost predicate Shut(s: Sys, f: Family, n: Time) {
    Retired(s, f, n) && NoneLate(s, f)
  }

  /** No open transaction may still renew the family on an old clock reading. */
  ghost predicate NoneLate(s: Sys, f: Family) {
    forall p | p in s.txns :: !MayRenewLate(s, s.txns[p], f)
  }

  lemma StepKeepsShut(st: Settings, s: Sys, a: Action, s': Sys, f: Family, n: Time)
    requires SysOk(st, s) && Step(st, s, a, s') && Shut(s, f, n)
    ensures Shut(s', f, n)
    ensures forall i | |s.rotated| <= i < |s'.rotated| :: s'.rotated[i] in s.issued && s.issued[s'.rotated[i]] != f
  {
    hide Inv, SysOk, MayRenewLate, StepReadUser, StepTakeLock, StepReadRow, StepReject, StepInsertNext, StepMarkOld,
         StepCheckUser, StepOpenFamily, StepListFamilies, StepRevokeNext;
    match a
    case Commit(p) => CommitKeepsRetired(st, s, p, s', f, n); CommitKeepsNoneLate(s, p, s', f);
    case Cleanup(_) => CleanupKeepsNoneLate(s, s', f);
    case Tick(_) => CleanupKeepsNoneLate(s, s', f);
    case SetUser(_, _) => CleanupKeepsNoneLate(s, s', f);
    case Abort(p) => CommitKeepsNoneLate(s, p, s', f);
    case _ => StepMoves(st, s, a, s', a.p); StepKeepsNoneLate(st, s, a, s', a.p, f, n);
  }

  lemma CommitKeepsNoneLate(s: Sys, p: Pid, s': Sys, f: Family)
    requires NoneLate(s, f) && NoNewLive(s, s', f) && s'.issued == s.issued && s'.txns == s.txns - {p}
    ensures NoneLate(s', f)
  {
  }

  lemma CleanupKeepsNoneLate(s: Sys, s': Sys, f: Family)
    requires NoneLate(s, f) && NoNewLive(s, s', f) && s'.issued == s.issued && s'.txns == s.txns
    ensures NoneLate(s', f)
  {
  }

  lemma StepKeepsNoneLate(st: Settings, s: Sys, a: Action, s': Sys, p: Pid, f: Family, n: Time)
    requires SysOk(st, s) && Step(st, s, a, s') && Shut(s, f, n) && StepOf(a, p) && Moves(s, s', p)
    ensures NoneLate(s', f)
  {
    hide Inv, SysOk, MayRenewLate, Retired, StepReadUser, StepTakeLock, StepReadRow, StepReject, StepInsertNext,
         StepMarkOld, StepCheckUser, StepOpenFamily, StepListFamilies, StepRevokeNext;
    match a
    case Begin(_, job) => BeginNotLate(st, s, p, job, s', f, n);
    case ReadUser(_) => ReadUserNotLate(s, p, s', f);
    case TakeLock(_) => TakeLockNotLate(s, p, s', f);
    case ReadRow(_) => ReadRowNotLate(s, p, s', f);
    case Reject(_) => RejectNotLate(s, p, s', f);
    case InsertNext(_, next, secret) => InsertNotLate(st, s, p, next, secret, s', f, n);
    case MarkOld(_) => MarkOldNotLate(s, p, s', f);
    case CheckUser(_) => CheckIsElsewhere(st, s, p, s', f, n);
    case OpenFamily(_, jti, secret, family) => OpenNotLate(st, s, p, jti, secret, family, s', f, n);
    case ListFamilies(_, listing) => ListNotLate(st, s, p, listing, s', f);
    case RevokeNext(_) => RevokeNotLate(s, p, s', f);
  }

  lemma BeginNotLate(st: Settings, s: Sys, p: Pid, job: Job, s': Sys, f: Family, n: Time)
    requires Step(st, s, Begin(p, job), s') && Shut(s, f, n) && Moves(s, s', p)
    ensures NoneLate(s', f)
  {
    TheOthers(s, s', p, f);
  }

  lemma ReadUserNotLate(s: Sys, p: Pid, s': Sys, f: Family)
    requires StepReadUser(s, p, s') && NoneLate(s, f) && Moves(s, s', p)
    ensures NoneLate(s', f)
  {
    ReadUserSameLateness(s, p, s', f);
    assert !MayRenewLate(s, s.txns[p], f);
    hide MayRenewLate, StepReadUser;
    TheOthers(s, s', p, f);
  }

  lemma ReadUserSameLateness(s: Sys, p: Pid, s': Sys, f: Family)
    requires StepReadUser(s, p, s')
    ensures p in s'.txns && s'.issued == s.issued
    ensures MayRenewLate(s', s'.txns[p], f) ==> MayRenewLate(s, s.txns[p], f)
  {
    ReadUserShape(s, p, s');
    assert s.txns[p].pc.Begun?;
    hide StepReadUser;
  }

  lemma TakeLockNotLate(s: Sys, p: Pid, s': Sys, f: Family)
    requires StepTakeLock(s, p, s') && NoneLate(s, f) && Moves(s, s', p)
    ensures NoneLate(s', f)
  {
    hide IsListing, IsReuse, Renewable, RevokeIn;
    assert !MayRenewLate(s, s.txns[p], f);
    TheOthers(s, s', p, f);
  }

  lemma ReadRowNotLate(s: Sys, p: Pid, s': Sys, f: Family)
    requires StepReadRow(s, p, s') && NoneLate(s, f) && Moves(s, s', p)
    ensures NoneLate(s', f)
  {
    ReadRowSameLateness(s, p, s', f);
    assert !MayRenewLate(s, s.txns[p], f);
    hide MayRenewLate, StepReadRow;
    TheOthers(s, s', p, f);
  }

  lemma ReadRowSameLateness(s: Sys, p: Pid, s': Sys, f: Family)
    requires StepReadRow(s, p, s')
    ensures p in s'.txns && s'.issued == s.issued
    ensures MayRenewLate(s', s'.txns[p], f) ==> MayRenewLate(s, s.txns[p], f)
  {
    AfterSetPc(s, p);
    hide SetPc;
  }

  lemma RejectRests(s: Sys, p: Pid, s': Sys)
    requires StepReject(s, p, s') && p in s'.txns
    ensures AtRest(s'.txns[p].pc) && s'.issued == s.issued
  {
    AfterSetPc(s, p);
    hide IsReuse, Renewable, RevokeIn, SetPc;
  }

  lemma RejectNotLate(s: Sys, p: Pid, s': Sys, f: Family)
    requires StepReject(s, p, s') && NoneLate(s, f) && Moves(s, s', p)
    ensures NoneLate(s', f)
  {
    RejectRests(s, p, s');
    hide StepReject, MayRenewLate, NoneLate, Moves, AtRest;
    AtRestNotLate(s, s', p, f);
  }

  lemma MarkOldNotLate(s: Sys, p: Pid, s': Sys, f: Family)
    requires StepMarkOld(s, p, s') && NoneLate(s, f) && Moves(s, s', p)
    ensures NoneLate(s', f)
  {
    hide IsListing, IsReuse, Renewable, RevokeIn;
    assert !MayRenewLate(s, s.txns[p], f);
    TheOthers(s, s', p, f);
  }

  lemma ListNotLate(st: Settings, s: Sys, p: Pid, listing: seq<Family>, s': Sys, f: Family)
    requires StepListFamilies(st, s, p, listing, s') && NoneLate(s, f) && Moves(s, s', p)
    ensures NoneLate(s', f)
  {
    AfterSetPc(s, p);
    hide IsListing, RevokeIn, SetPc, NoneLate, Moves;
    assert AtRest(s'.txns[p].pc) && s'.issued == s.issued;
    AtRestNotLate(s, s', p, f);
  }

  lemma RevokeNotLate(s: Sys, p: Pid, s': Sys, f: Family)
    requires StepRevokeNext(s, p, s') && NoneLate(s, f) && Moves(s, s', p)
    ensures NoneLate(s', f)
  {
    AfterSetPc(s, p);
    hide IsListing, RevokeIn, SetPc, NoneLate, Moves;
    assert AtRest(s'.txns[p].pc) && s'.issued == s.issued;
    AtRestNotLate(s, s', p, f);
  }

  predicate AtRest(pc: Pc) {
    pc.Opened? || pc.Revoking? || (pc.Finished? && !pc.result.Renewed? && !pc.result.Denied?)
  }

  lemma AtRestNotLate(s: Sys, s': Sys, p: Pid, f: Family)
    requires Moves(s, s', p) && s'.issued == s.issued && NoneLate(s, f) && AtRest(s'.txns[p].pc)
    ensures NoneLate(s', f)
  {
    TheOthers(s, s', p, f);
  }

  lemma InsertNotLate(st: Settings, s: Sys, p: Pid, next: Jti, secret: nat, s': Sys, f: Family, n: Time)
    requires SysOk(st, s) && StepInsertNext(st, s, p, next, secret, s') && Shut(s, f, n) && Moves(s, s', p)
    ensures NoneLate(s', f)
  {
    hide Inv, SysOk, Renewable;
    InsertIsElsewhere(st, s, p, next, secret, s', f, n);
    TheOthers(s, s', p, f);
  }

  lemma OpenNotLate(st: Settings, s: Sys, p: Pid, jti: Jti, secret: nat, family: Family, s': Sys, f: Family, n: Time)
    requires SysOk(st, s) && StepOpenFamily(st, s, p, jti, secret, family, s') && Shut(s, f, n) && Moves(s, s', p)
    ensures NoneLate(s', f)
  {
    hide Inv, SysOk;
    OpenIsElsewhere(st, s, p, jti, secret, family, s', f);
    assert !MayRenewLate(s, s.txns[p], f);
    TheOthers(s, s', p, f);
  }

  lemma TheOthers(s: Sys, s': Sys, p: Pid, f: Family)
    requires NoneLate(s, f) && NoNewLive(s, s', f)
    requires forall j | j in s.issued :: j in s'.issued && s'.issued[j] == s.issued[j]
    requires forall j | j in s'.issued && j !in s.issued :: s'.issued[j] != f
    requires p in s'.txns ==> !MayRenewLate(s', s'.txns[p], f)
    requires forall q | q in s'.txns && q != p :: q in s.txns && s'.txns[q] == s.txns[q]
    ensures NoneLate(s', f)
  {
    forall q | q in s'.txns ensures !MayRenewLate(s', s'.txns[q], f) {
      if q != p { assert !MayRenewLate(s, s.txns[q], f); }
    }
  }

  lemma InsertIsElsewhere(st: Settings, s: Sys, p: Pid, next: Jti, secret: nat, s': Sys, f: Family, n: Time)
    requires SysOk(st, s) && StepInsertNext(st, s, p, next, secret, s') && Shut(s, f, n)
    ensures s.txns[p].pc.row.family != f
  {
    hide Inv, SysOk, WriteOk;
    TheTxn(st, s, p);
    StoredUser(st, s, s.txns[p].pc.row.jti);
  }

  lemma CheckIsElsewhere(st: Settings, s: Sys, p: Pid, s': Sys, f: Family, n: Time)
    requires SysOk(st, s) && StepCheckUser(s, p, s') && Shut(s, f, n) && Moves(s, s', p)
    ensures NoneLate(s', f)
  {
    MarkedRowIsStored(st, s, p, s');
    CheckSameLateness(s, p, s', f);
    assert !MayRenewLate(s, s.txns[p], f);
    hide SysOk, MayRenewLate, StepCheckUser;
    TheOthers(s, s', p, f);
  }

  lemma MarkedRowIsStored(st: Settings, s: Sys, p: Pid, s': Sys)
    requires SysOk(st, s) && StepCheckUser(s, p, s')
    ensures var row := s.txns[p].pc.row; row.jti in s.issued && s.issued[row.jti] == row.family
  {
    hide Inv, SysOk, WriteOk, SetPc, RevokeIn;
    TheTxn(st, s, p);
    StoredUser(st, s, s.txns[p].pc.row.jti);
  }

  lemma CheckSameLateness(s: Sys, p: Pid, s': Sys, f: Family)
    requires StepCheckUser(s, p, s')
    requires var row := s.txns[p].pc.row; row.jti in s.issued && s.issued[row.jti] == row.family
    ensures p in s'.txns && s'.issued == s.issued
    ensures MayRenewLate(s', s'.txns[p], f) ==> MayRenewLate(s, s.txns[p], f)
  {
    AfterSetPc(s, p);
    hide SetPc, RevokeIn;
  }

  lemma OpenIsElsewhere(st: Settings, s: Sys, p: Pid, jti: Jti, secret: nat, family: Family, s': Sys, f: Family)
    requires SysOk(st, s) && StepOpenFamily(st, s, p, jti, secret, family, s') && f in s.known
    ensures family != f
  {
    hide Inv, SysOk, WriteOk;
    TheTxn(st, s, p);
  }

  lemma CommitKeepsRetired(st: Settings, s: Sys, p: Pid, s': Sys, f: Family, n: Time)
    requires SysOk(st, s) && StepCommit(s, p, s') && Shut(s, f, n)
    ensures Retired(s', f, n) && NoNewLive(s, s', f)
    ensures forall i | |s.rotated| <= i < |s'.rotated| :: s'.rotated[i] in s.issued && s.issued[s'.rotated[i]] != f
  {
    hide Inv, SysOk;
    TheTxn(st, s, p);
    var x := s.txns[p];
    if NewlyRotated(x.pc.result) != [] { StoredUser(st, s, x.pc.result.from); }
    forall j | j in x.writes && x.writes[j].family == f ensures x.writes[j].revokedAt.Some? {
      assert WriteOk(s, x, j);
    }
  }

  /** While no open transaction can still renew the family late, an expired family stays shut for
      ever and none of its tokens is rotated. */
  lemma {:induction false} ShutStaysShut(st: Settings, states: seq<Sys>, acts: seq<Action>, i: nat, k: nat,
      f: Family, n: Time)
    requires IsRun(st, states, acts) && i <= k < |states| && Shut(states[i], f, n)
    ensures Shut(states[k], f, n)
    ensures forall m | |states[i].rotated| <= m < |states[k].rotated| ::
              states[k].rotated[m] in states[k].issued && states[k].issued[states[k].rotated[m]] != f
    decreases k
  {
    hide SysOk, Step, Shut, Dead;
    if i < k {
      ShutStaysShut(st, states, acts, i, k - 1, f, n);
      Reachable(st, states, acts, k - 1);
      StepKeepsShut(st, states[k - 1], acts[k - 1], states[k], f, n);
      StepEvolves(st, states[k - 1], acts[k - 1], states[k]);
      RunEvolves(st, states, acts, i, k - 1);
    }
  }

  lemma ChangeRetires(st: Settings, s: Sys, p: Pid, s': Sys, user: int, newest: Family, n: Time, f: Family)
    requires SysOk(st, s) && StepCommit(s, p, s') && s.txns[p].pc == Finished(Some(user), Changed(user, newest, n))
    requires f in s.known && f != newest && f in s.origins && s.origins[f].user == user
    ensures Retired(s', f, n)
  {
    hide Inv, SysOk, WriteOk;
    TheTxn(st, s, p);
    CommitKeeps(st, s, p, s');
    StoredRows(st, s');
  }

  lemma StoredRows(st: Settings, s: Sys)
    requires SysOk(st, s)
    ensures forall j | j in s.rows ::
              s.rows[j].family in s.origins && s.origins[s.rows[j].family].user == s.rows[j].user
  {
    hide Inv;
    forall j | j in s.rows ensures Stored(s, j, s.rows[j]) { }
  }

  /** A committed change of password shuts every older family of the user for good, provided no
      transaction that is open at that moment may still renew it on a clock reading from before the
      expiry of its live row. RefreshPaths shows that the proviso is exact. */
  lemma PasswordChangeIsFinal(st: Settings, states: seq<Sys>, acts: seq<Action>, i: nat, k: nat,
                              p: Pid, user: int, newest: Family, n: Time, f: Family)
    requires IsRun(st, states, acts) && i < k < |states| && acts[i] == Commit(p)
    requires p in states[i].txns && states[i].txns[p].pc == Finished(Some(user), Changed(user, newest, n))
    requires f in states[i].known && f != newest && f in states[i].origins && states[i].origins[f].user == user
    requires NoneLate(states[i + 1], f)
    ensures forall j | j in states[k].rows && states[k].rows[j].family == f ::
              states[k].rows[j].revokedAt.Some? || states[k].rows[j].expiresAt <= n
    ensures forall m | |states[i + 1].rotated| <= m < |states[k].rotated| ::
              states[k].rotated[m] in states[k].issued && states[k].issued[states[k].rotated[m]] != f
  {
    hide Inv, SysOk, MayRenewLate;
    Reachable(st, states, acts, i);
    assert Step(st, states[i], acts[i], states[i + 1]);
    ChangeRetires(st, states[i], p, states[i + 1], user, newest, n, f);
    ShutStaysShut(st, states, acts, i + 1, k, f, n);
  }
}
