/** A login checks the password before it takes the user's lock, so it can wait out a change of password
    and open a family afterwards. When that happens, exactly. */
module RefreshPasswords {
  import opened Wrappers
  import opened RefreshTable
  import opened RefreshService
  import opened RefreshConcurrent
  import opened RefreshSafety
  import opened RefreshRuns
  import opened RefreshPaths
  import RefreshLaws

  // ---------- Passwords over a run ----------

  /** The step commits a change of the user's password. */
  ghost predicate ChangesPassword(s: Sys, a: Action, user: int) {
    && a.Commit? && a.p in s.txns && s.txns[a.p].pc.Finished?
    && s.txns[a.p].pc.result.Changed? && s.txns[a.p].pc.result.user == user
  }

  /** The job of a login or a change of password whose password has been checked and that may still open a
      family. */
  function Verified(pc: Pc): (job: Option<Job>)
    ensures job.Some? ==> !IsToken(job.value)
  {
    match pc
    case Known(job, _) => if IsToken(job) then None else Some(job)
    case Holding(job, _) => if IsToken(job) then None else Some(job)
    case Opened(job, _) => if IsToken(job) then None else Some(job)
    case Revoking(job, _, _, _, _) => if IsToken(job) then None else Some(job)
    case _ => None
  }

  lemma StepCounts(st: Settings, s: Sys, a: Action, s': Sys, user: int)
    requires Step(st, s, a, s')
    ensures Password(s', user) == Password(s, user) + if ChangesPassword(s, a, user) then 1 else 0
  {
    hide StepReadUser, StepTakeLock, StepReadRow, StepReject, StepInsertNext, StepMarkOld, StepCheckUser,
         StepOpenFamily, StepListFamilies, StepRevokeNext, Unaffected, View;
    match a
    case Tick(_) =>
    case SetUser(_, _) =>
    case Commit(_) =>
    case Abort(_) =>
    case Cleanup(_) =>
    case _ => StepMoves(st, s, a, s', a.p);
  }

  /** What a step of transaction p makes of its checked job and of the families it writes to; `fs` has all
      the families of rows that it may see. */
  ghost predicate Inherits(s: Sys, a: Action, s': Sys, p: Pid, fs: set<Family>) {
    && p in s'.txns
    && (forall j | j in s'.txns[p].writes :: s'.txns[p].writes[j].family in fs)
    && (Verified(s'.txns[p].pc).Some? ==>
          && p in s.txns
          && var job := Verified(s'.txns[p].pc).value;
             if a == ReadUser(p) then s.txns[p].pc == Begun(job) && Verifies(s, job)
             else Verified(s.txns[p].pc) == Some(job))
  }

  ghost predicate Sees(s: Sys, p: Pid, fs: set<Family>) {
    && (forall j | j in s.rows :: s.rows[j].family in fs)
    && (p in s.txns ==> forall j | j in s.txns[p].writes :: s.txns[p].writes[j].family in fs)
  }

  lemma RevokeInSees(s: Sys, p: Pid, f: Family, reason: Reason, now: Time, fs: set<Family>)
    requires p in s.txns && Sees(s, p, fs)
    ensures var w := RevokeIn(s.rows, s.txns[p].writes, f, reason, now); forall j | j in w :: w[j].family in fs
  {
  }

  lemma BeginInherits(st: Settings, s: Sys, p: Pid, job: Job, s': Sys, fs: set<Family>)
    requires Step(st, s, Begin(p, job), s')
    ensures Inherits(s, Begin(p, job), s', p, fs)
  {
    AfterSetPc(s, p);
    hide SetPc;
  }

  lemma ReadUserInherits(s: Sys, p: Pid, s': Sys, fs: set<Family>)
    requires StepReadUser(s, p, s')
    ensures Inherits(s, ReadUser(p), s', p, fs)
  {
    ReadUserShape(s, p, s');
    hide StepReadUser, Verifies;
  }

  lemma TakeLockInherits(s: Sys, p: Pid, s': Sys, fs: set<Family>)
    requires StepTakeLock(s, p, s')
    ensures Inherits(s, TakeLock(p), s', p, fs)
  {
  }

  lemma ReadRowInherits(s: Sys, p: Pid, s': Sys, fs: set<Family>)
    requires StepReadRow(s, p, s')
    ensures Inherits(s, ReadRow(p), s', p, fs)
  {
    AfterSetPc(s, p);
    hide SetPc;
  }

  lemma RejectInherits(s: Sys, p: Pid, s': Sys, fs: set<Family>)
    requires StepReject(s, p, s') && Sees(s, p, fs)
    ensures Inherits(s, Reject(p), s', p, fs)
  {
    RejectShape(s, p, s');
    var x := s.txns[p];
    RevokeInSees(s, p, x.pc.row.family, LoggedOut, s.clock, fs);
    if x.pc.job.Refresh? { RevokeInSees(s, p, x.pc.row.family, ReuseDetected, x.pc.job.checked, fs); }
    hide StepReject, RevokeIn, IsReuse;
  }

  lemma InsertNextInherits(st: Settings, s: Sys, p: Pid, next: Jti, secret: nat, s': Sys, fs: set<Family>)
    requires StepInsertNext(st, s, p, next, secret, s') && Sees(s, p, fs) && PcOk(s, s.txns[p])
    ensures Inherits(s, InsertNext(p, next, secret), s', p, fs)
  {
    hide Renewable;
  }

  lemma MarkOldInherits(s: Sys, p: Pid, s': Sys, fs: set<Family>)
    requires StepMarkOld(s, p, s') && Sees(s, p, fs) && PcOk(s, s.txns[p])
    ensures Inherits(s, MarkOld(p), s', p, fs)
  {
    AfterSetPc(s, p);
    hide SetPc, Renewable;
  }

  lemma CheckUserInherits(s: Sys, p: Pid, s': Sys, fs: set<Family>)
    requires StepCheckUser(s, p, s') && Sees(s, p, fs)
    ensures Inherits(s, CheckUser(p), s', p, fs)
  {
    AfterSetPc(s, p);
    RevokeInSees(s, p, s.txns[p].pc.row.family, LoggedOut, s.clock, fs);
    hide SetPc, RevokeIn;
  }

  lemma OpenFamilyInherits(st: Settings, s: Sys, p: Pid, jti: Jti, secret: nat, family: Family, s': Sys,
                           fs: set<Family>)
    requires StepOpenFamily(st, s, p, jti, secret, family, s') && Sees(s, p, fs) && family in fs
    ensures Inherits(s, OpenFamily(p, jti, secret, family), s', p, fs)
  {
  }

  lemma ListInherits(st: Settings, s: Sys, p: Pid, listing: seq<Family>, s': Sys, fs: set<Family>)
    requires StepListFamilies(st, s, p, listing, s') && Sees(s, p, fs)
    ensures Inherits(s, ListFamilies(p, listing), s', p, fs)
  {
    AfterSetPc(s, p);
    hide SetPc, IsListing, View;
  }

  lemma RevokeNextInherits(s: Sys, p: Pid, s': Sys, fs: set<Family>)
    requires StepRevokeNext(s, p, s') && Sees(s, p, fs)
    ensures Inherits(s, RevokeNext(p), s', p, fs)
  {
    AfterSetPc(s, p);
    var pc := s.txns[p].pc;
    if pc.queue != [] {
      RevokeInSees(s, p, pc.queue[0], if pc.job.Login? then ConcurrencyLimit else PasswordChanged, pc.listedAt, fs);
    }
    hide SetPc, RevokeIn;
  }

  lemma OwnStepInherits(st: Settings, s: Sys, a: Action, s': Sys, p: Pid, fs: set<Family>)
    requires Step(st, s, a, s') && StepOf(a, p) && SysOk(st, s) && Sees(s, p, fs) && (a.OpenFamily? ==> a.family in fs)
    ensures Inherits(s, a, s', p, fs)
  {
    hide SysOk, PcOk, Sees, Inherits, StepReadUser, StepTakeLock, StepReadRow, StepReject, StepInsertNext, StepMarkOld,
         StepCheckUser, StepOpenFamily, StepListFamilies, StepRevokeNext;
    match a
    case Begin(_, job) => BeginInherits(st, s, p, job, s', fs);
    case ReadUser(_) => ReadUserInherits(s, p, s', fs);
    case TakeLock(_) => TakeLockInherits(s, p, s', fs);
    case ReadRow(_) => ReadRowInherits(s, p, s', fs);
    case Reject(_) => RejectInherits(s, p, s', fs);
    case InsertNext(_, next, secret) =>
      InsertIsOpen(st, s, p, next, secret, s');
      InsertNextInherits(st, s, p, next, secret, s', fs);
    case MarkOld(_) =>
      MarkIsOpen(st, s, p, s');
      MarkOldInherits(s, p, s', fs);
    case CheckUser(_) => CheckUserInherits(s, p, s', fs);
    case OpenFamily(_, jti, secret, family) => OpenFamilyInherits(st, s, p, jti, secret, family, s', fs);
    case ListFamilies(_, listing) => ListInherits(st, s, p, listing, s', fs);
    case RevokeNext(_) => RevokeNextInherits(s, p, s', fs);
  }

  lemma InsertIsOpen(st: Settings, s: Sys, p: Pid, next: Jti, secret: nat, s': Sys)
    requires SysOk(st, s) && StepInsertNext(st, s, p, next, secret, s')
    ensures p in s.txns && PcOk(s, s.txns[p])
  {
    hide SysOk, PcOk;
    PcIs(st, s, p);
  }

  lemma MarkIsOpen(st: Settings, s: Sys, p: Pid, s': Sys)
    requires SysOk(st, s) && StepMarkOld(s, p, s')
    ensures p in s.txns && PcOk(s, s.txns[p])
  {
    hide SysOk, PcOk;
    PcIs(st, s, p);
  }

  /** A transaction that is past its check has just made it, or was past it before with the same job. */
  lemma StepVerifies(st: Settings, s: Sys, a: Action, s': Sys, q: Pid)
    requires Step(st, s, a, s') && SysOk(st, s) && q in s'.txns && Verified(s'.txns[q].pc).Some?
    ensures q in s.txns
    ensures var job := Verified(s'.txns[q].pc).value;
      if a == ReadUser(q) then s.txns[q].pc == Begun(job) && Verifies(s, job) else Verified(s.txns[q].pc) == Some(job)
  {
    hide SysOk, Sees, StepReadUser, StepTakeLock, StepReadRow, StepReject, StepInsertNext, StepMarkOld, StepCheckUser,
         StepOpenFamily, StepListFamilies, StepRevokeNext, Unaffected, View;
    match a
    case Tick(_) =>
    case SetUser(_, _) =>
    case Commit(_) =>
    case Abort(_) =>
    case Cleanup(_) =>
    case _ =>
      StepMoves(st, s, a, s', a.p);
      if q == a.p { OwnStepInherits(st, s, a, s', q, Everything(s, q, a)); }
  }

  /** All the families in sight. */
  ghost function Everything(s: Sys, p: Pid, a: Action): (fs: set<Family>)
    ensures Sees(s, p, fs) && (a.OpenFamily? ==> a.family in fs)
  {
    (set j | j in s.rows :: s.rows[j].family)
    + (if p in s.txns then set j | j in s.txns[p].writes :: s.txns[p].writes[j].family else {})
    + (if a.OpenFamily? then {a.family} else {})
  }

  lemma {:induction false} VerifiedAt(st: Settings, states: seq<Sys>, acts: seq<Action>, i: nat, q: Pid)
    returns (v: nat)
    requires IsRun(st, states, acts) && i < |states| && q in states[i].txns && Verified(states[i].txns[q].pc).Some?
    ensures v < i && acts[v] == ReadUser(q) && (forall k | v < k < i :: acts[k] != ReadUser(q))
    ensures Verifies(states[v], Verified(states[i].txns[q].pc).value)
  {
    hide Step, SysOk;
    assert i > 0;
    Reachable(st, states, acts, i - 1);
    StepVerifies(st, states[i - 1], acts[i - 1], states[i], q);
    if acts[i - 1] == ReadUser(q) { v := i - 1; } else { v := VerifiedAt(st, states, acts, i - 1, q); }
  }

  /** Between two states the password counts up exactly when a change is committed in between. */
  lemma {:induction false} PasswordsMove(st: Settings, states: seq<Sys>, acts: seq<Action>, i: nat, k: nat, user: int)
    requires IsPath(st, states, acts) && i <= k < |states|
    ensures Password(states[i], user) <= Password(states[k], user)
    ensures Password(states[i], user) < Password(states[k], user) <==>
            exists m :: i <= m < k && ChangesPassword(states[m], acts[m], user)
    decreases k
  {
    hide Step, ChangesPassword;
    if i < k {
      PasswordsMove(st, states, acts, i, k - 1, user);
      assert Step(st, states[k - 1], acts[k - 1], states[k]);
      StepCounts(st, states[k - 1], acts[k - 1], states[k], user);
    }
  }

  /** In every run a family is opened for a user who was enabled, with the password the user had, when its opener
      checked both; and with an older password than the user has at that moment if and only if a change of password
      has been committed since. */
  lemma OpenedWithOldPasswordExactlyWhen(st: Settings, states: seq<Sys>, acts: seq<Action>, m: nat,
                                         p: Pid, jti: Jti, secret: nat, family: Family) returns (v: nat)
    requires IsRun(st, states, acts) && m < |acts| && acts[m] == OpenFamily(p, jti, secret, family)
    ensures v < m && acts[v] == ReadUser(p) && forall k | v < k < m :: acts[k] != ReadUser(p)
    ensures var s' := states[m + 1];
      && family in s'.origins && family in s'.openedWith
      && var user := s'.origins[family].user;
         && user in states[v].enabled && s'.openedWith[family] == Password(states[v], user) <= Password(s', user)
         && (s'.openedWith[family] < Password(s', user) <==>
               exists k :: v < k < m && ChangesPassword(states[k], acts[k], user))
  {
    hide Inv, SysOk, WriteOk;
    var s, s' := states[m], states[m + 1];
    assert Step(st, s, acts[m], s');
    Reachable(st, states, acts, m);
    PcIs(st, s, p);
    OpeningShape(st, s, p, jti, secret, family, s');
    v := VerifiedAt(st, states, acts, m, p);
    var job := Verified(s.txns[p].pc).value;
    assert job.password == Password(states[v], job.user) by { assert Verifies(states[v], job); }
    PasswordsMove(st, states, acts, v, m, job.user);
    assert !ChangesPassword(states[v], acts[v], job.user);
  }

  lemma PcIs(st: Settings, s: Sys, p: Pid)
    requires SysOk(st, s) && p in s.txns
    ensures PcOk(s, s.txns[p])
  {
    hide Inv, WriteOk, PcOk;
    TheTxn(st, s, p);
  }

  lemma OpeningShape(st: Settings, s: Sys, p: Pid, jti: Jti, secret: nat, family: Family, s': Sys)
    requires StepOpenFamily(st, s, p, jti, secret, family, s') && PcOk(s, s.txns[p])
    ensures var job := Verified(s.txns[p].pc);
      && job.Some?
      && s'.origins == s.origins[family := Origin(job.value.user, s.clock)]
      && s'.openedWith == s.openedWith[family := job.value.password] && s'.passwords == s.passwords
  {
    hide NewRow, View, Closed;
  }

  // ---------- After a change of password ----------

  /** No open transaction of the user has had an older password checked. */
  ghost predicate NoOldCheck(s: Sys, user: int) {
    forall q | q in s.txns && Verified(s.txns[q].pc).Some? && Verified(s.txns[q].pc).value.user == user ::
      Verified(s.txns[q].pc).value.password >= Password(s, user)
  }

  /** Of the families of the user that are committed in t and were not in s, none was opened with an older
      password than the user has in s. */
  ghost predicate NoneFromOld(s: Sys, t: Sys, user: int) {
    forall f | f in t.known && f !in s.known && f in t.origins && t.origins[f].user == user ::
      f in t.openedWith && t.openedWith[f] >= Password(s, user)
  }

  /** The families in t of other users, those that were known before, and those opened with `least` or a
      later password. */
  ghost function Fine(t: Sys, before: set<Family>, user: int, least: nat): set<Family> {
    set f | f in t.origins
            && (t.origins[f].user != user || f in before || (f in t.openedWith && t.openedWith[f] >= least))
  }

  ghost predicate AllFine(t: Sys, before: set<Family>, user: int, least: nat) {
    && least <= Password(t, user)
    && t.known <= Fine(t, before, user, least)
    && (forall q, j | q in t.txns && j in t.txns[q].writes ::
          t.txns[q].writes[j].family in Fine(t, before, user, least))
    && (forall q | q in t.txns && Verified(t.txns[q].pc).Some? && Verified(t.txns[q].pc).value.user == user ::
          Verified(t.txns[q].pc).value.password >= least)
  }

  lemma FineGrows(s: Sys, s': Sys, before: set<Family>, user: int, least: nat)
    requires forall f | f in s.origins :: f in s'.origins && s'.origins[f] == s.origins[f]
    requires forall f | f in s.origins && f in s.openedWith :: f in s'.openedWith && s'.openedWith[f] == s.openedWith[f]
    ensures Fine(s, before, user, least) <= Fine(s', before, user, least)
  {
  }

  lemma StepKeepsFine(st: Settings, s: Sys, a: Action, s': Sys, before: set<Family>, user: int, least: nat)
    requires SysOk(st, s) && SysOk(st, s') && Step(st, s, a, s') && AllFine(s, before, user, least)
    ensures AllFine(s', before, user, least)
  {
    hide SysOk, Sees, Verified, Fine, StepReadUser, StepTakeLock, StepReadRow, StepReject, StepInsertNext, StepMarkOld,
         StepCheckUser, StepOpenFamily, StepListFamilies, StepRevokeNext, Unaffected, View;
    StepCounts(st, s, a, s', user);
    match a
    case Tick(_) => FineGrows(s, s', before, user, least);
    case SetUser(_, _) => FineGrows(s, s', before, user, least);
    case Abort(_) => FineGrows(s, s', before, user, least);
    case Cleanup(_) => FineGrows(s, s', before, user, least);
    case Commit(_) => FineGrows(s, s', before, user, least);
    case _ => OwnStepKeepsFine(st, s, a, s', a.p, before, user, least);
  }

  lemma OwnStepKeepsFine(st: Settings, s: Sys, a: Action, s': Sys, p: Pid, before: set<Family>, user: int, least: nat)
    requires SysOk(st, s) && SysOk(st, s') && Step(st, s, a, s') && StepOf(a, p) && AllFine(s, before, user, least)
    ensures AllFine(s', before, user, least)
  {
    hide SysOk, Sees, Verified, Fine, StepReadUser, StepTakeLock, StepReadRow, StepReject, StepInsertNext, StepMarkOld,
         StepCheckUser, StepOpenFamily, StepListFamilies, StepRevokeNext;
    StepMoves(st, s, a, s', p);
    FineGrows(s, s', before, user, least);
    var fine := Fine(s', before, user, least);
    SeesFine(st, s, p, fine);
    if a.OpenFamily? { OpensFine(st, s, p, a.jti, a.secret, a.family, s', before, user, least); }
    OwnStepInherits(st, s, a, s', p, fine);
  }

  lemma SeesFine(st: Settings, s: Sys, p: Pid, fs: set<Family>)
    requires SysOk(st, s) && s.known <= fs
    requires p in s.txns ==> forall j | j in s.txns[p].writes :: s.txns[p].writes[j].family in fs
    ensures Sees(s, p, fs)
  {
    hide Inv, TxnOk;
  }

  lemma OpensFine(st: Settings, s: Sys, p: Pid, jti: Jti, secret: nat, family: Family, s': Sys,
                  before: set<Family>, user: int, least: nat)
    requires SysOk(st, s) && StepOpenFamily(st, s, p, jti, secret, family, s') && AllFine(s, before, user, least)
    ensures family in Fine(s', before, user, least)
  {
    hide SysOk, PcOk, Fine, Verified, NewRow;
    OpenerIsOpen(st, s, p, jti, secret, family, s');
    OpeningShape(st, s, p, jti, secret, family, s');
    var job := Verified(s.txns[p].pc).value;
    assert job.user == user ==> job.password >= least;
    hide AllFine, StepOpenFamily;
    OpenedIsFine(s', before, user, least, family);
  }

  lemma OpenedIsFine(s: Sys, before: set<Family>, user: int, least: nat, f: Family)
    requires f in s.origins && f in s.openedWith && (s.origins[f].user == user ==> s.openedWith[f] >= least)
    ensures f in Fine(s, before, user, least)
  {
  }

  lemma OpenerIsOpen(st: Settings, s: Sys, p: Pid, jti: Jti, secret: nat, family: Family, s': Sys)
    requires SysOk(st, s) && StepOpenFamily(st, s, p, jti, secret, family, s')
    ensures p in s.txns && PcOk(s, s.txns[p])
  {
    hide SysOk, PcOk;
    PcIs(st, s, p);
  }

  lemma {:induction false} PathKeepsFine(st: Settings, states: seq<Sys>, acts: seq<Action>, i: nat,
                                         before: set<Family>, user: int, least: nat)
    requires IsPath(st, states, acts) && SysOk(st, states[0]) && AllFine(states[0], before, user, least) && i < |states|
    ensures SysOk(st, states[i]) && AllFine(states[i], before, user, least)
  {
    hide Step, SysOk, AllFine;
    if i > 0 {
      PathKeepsFine(st, states, acts, i - 1, before, user, least);
      StepKeeps(st, states[i - 1], acts[i - 1], states[i]);
      StepKeepsFine(st, states[i - 1], acts[i - 1], states[i], before, user, least);
    }
  }

  /** The commit of a change of password leaves its user without uncommitted rows. */
  lemma ChangeStartsFine(st: Settings, s: Sys, p: Pid, s': Sys, user: int)
    requires SysOk(st, s) && SysOk(st, s') && StepCommit(s, p, s') && Owner(s.txns[p].pc) == Some(user)
    requires NoOldCheck(s', user)
    ensures AllFine(s', s'.known, user, Password(s', user))
  {
    hide Inv, SysOk, PcOk, Verified, View;
    BucketIsFree(st, s, p, s', user);
    hide StepCommit;
    forall f | f in s'.known ensures f in Fine(s', s'.known, user, Password(s', user)) { KnownFamily(st, s', f); }
    forall q, j | q in s'.txns && j in s'.txns[q].writes
      ensures s'.txns[q].writes[j].family in Fine(s', s'.known, user, Password(s', user))
    {
      TheTxn(st, s', q);
      TxnOwnsWrites(st, s', q, s'.txns[q]);
    }
  }

  lemma KnownFamily(st: Settings, s: Sys, f: Family)
    requires SysOk(st, s) && f in s.known
    ensures f in s.origins
  {
    hide Inv, TxnOk;
  }

  // ---------- A checked login or change runs to its end ----------

  /** Transaction p has come further; nothing is committed meanwhile. */
  ghost predicate Further(s: Sys, t: Sys, p: Pid) {
    && t == s.(txns := t.txns, locks := t.locks) && p in t.txns
  }

  /** The transaction still adds the family. */
  ghost predicate Adds(w: Table, jti: Jti, family: Family) { jti in w && w[jti].family == family }

  lemma RevokeInAdds(rows: Table, w: Table, f: Family, reason: Reason, now: Time, jti: Jti, family: Family)
    requires Adds(w, jti, family)
    ensures Adds(RevokeIn(rows, w, f, reason, now), jti, family)
  {
  }

  lemma RevokesOne(st: Settings, s: Sys, p: Pid, jti: Jti, family: Family) returns (s': Sys)
    requires p in s.txns && s.txns[p].pc.Revoking? && s.txns[p].pc.queue != []
    ensures Step(st, s, RevokeNext(p), s') && Further(s, s', p) && s'.locks == s.locks
    ensures s'.txns[p].pc == s.txns[p].pc.(queue := s.txns[p].pc.queue[1..])
    ensures Adds(s.txns[p].writes, jti, family) ==> Adds(s'.txns[p].writes, jti, family)
  {
    hide RevokeIn, Adds;
    var pc, w := s.txns[p].pc, s.txns[p].writes;
    var reason := if pc.job.Login? then ConcurrencyLimit else PasswordChanged;
    s' := SetPc(s, p, pc.(queue := pc.queue[1..]), RevokeIn(s.rows, w, pc.queue[0], reason, pc.listedAt));
    if Adds(w, jti, family) { RevokeInAdds(s.rows, w, pc.queue[0], reason, pc.listedAt, jti, family); }
  }

  lemma {:induction false} RevokesAll(st: Settings, s: Sys, p: Pid, jti: Jti, family: Family)
    returns (states: seq<Sys>, acts: seq<Action>)
    requires p in s.txns && s.txns[p].pc.Revoking?
    ensures IsPath(st, states, acts) && states[0] == s && Further(s, Last(states), p)
    ensures Last(states).txns[p].pc == s.txns[p].pc.(queue := []) && Last(states).locks == s.locks
    ensures Adds(s.txns[p].writes, jti, family) ==> Adds(Last(states).txns[p].writes, jti, family)
    decreases |s.txns[p].pc.queue|
  {
    hide IsPath, Adds, Step;
    states, acts := Here(st, s);
    if s.txns[p].pc.queue != [] {
      var s1 := RevokesOne(st, s, p, jti, family);
      states, acts := Then(st, states, acts, RevokeNext(p), s1);
      var more, moves := RevokesAll(st, s1, p, jti, family);
      states, acts := Onward(st, states, acts, more, moves);
    }
  }

  function WithOpening(s: Sys, p: Pid, job: Job, jti: Jti, family: Family, pc: Pc, w: Table): Sys
    requires !IsToken(job)
  {
    s.(txns := s.txns[p := Txn(pc, w)], nextId := s.nextId + 1, issued := s.issued[jti := family],
       origins := s.origins[family := Origin(job.user, s.clock)], openedWith := s.openedWith[family := job.password])
  }

  lemma OpensNow(st: Settings, s: Sys, p: Pid, jti: Jti, secret: nat, family: Family) returns (s': Sys)
    requires p in s.txns && jti !in s.issued && family !in s.origins
    requires var pc := s.txns[p].pc;
      (pc.Holding? && pc.job.Login?) || (pc.Revoking? && pc.job.ChangePassword? && pc.queue == [])
    requires s.txns[p].pc.user == s.txns[p].pc.job.user
    ensures Step(st, s, OpenFamily(p, jti, secret, family), s')
    ensures var pc := s.txns[p].pc; var user := pc.user;
      && p in s'.txns && Adds(s'.txns[p].writes, jti, family)
      && s' == WithOpening(s, p, pc.job, jti, family,
                           if pc.Holding? then Opened(pc.job, user)
                           else Finished(Some(user), Changed(user, family, pc.listedAt)), s'.txns[p].writes)
  {
    var pc := s.txns[p].pc;
    var n := NewRow(st, s.nextId, jti, family, pc.user, secret, s.clock, s.clock + st.absolute);
    assert n.family == family;
    hide NewRow;
    s' := WithOpening(s, p, pc.job, jti, family,
                      if pc.Holding? then Opened(pc.job, pc.user)
                      else Finished(Some(pc.user), Changed(pc.user, family, pc.listedAt)),
                      s.txns[p].writes[jti := n]);
  }

  lemma ListsNow(st: Settings, s: Sys, p: Pid) returns (s': Sys, listing: seq<Family>)
    requires p in s.txns
    requires var pc := s.txns[p].pc; pc.Opened? || (pc.Holding? && pc.job.ChangePassword?)
    ensures Step(st, s, ListFamilies(p, listing), s') && Further(s, s', p) && s'.locks == s.locks
    ensures s'.txns[p].writes == s.txns[p].writes && s'.txns[p].pc.Revoking?
    ensures s'.txns[p].pc.job == s.txns[p].pc.job && s'.txns[p].pc.user == s.txns[p].pc.user
  {
    var pc, w := s.txns[p].pc, s.txns[p].writes;
    hide IsListing, View, Kept, Overflow;
    listing := RefreshLaws.ListingExists(View(s.rows, w), pc.user, s.clock);
    s' := SetPc(s, p, if pc.Opened? then Revoking(pc.job, pc.user, Kept(st, listing), Overflow(st, listing), s.clock)
                      else Revoking(pc.job, pc.user, {}, listing, s.clock), w);
  }

  /** Everything up to the commit. */
  lemma UpToTheCommit(st: Settings, s: Sys, p: Pid, jti: Jti, secret: nat, family: Family)
    returns (states: seq<Sys>, acts: seq<Action>)
    requires p in s.txns && s.txns[p].pc.Holding? && jti !in s.issued && family !in s.origins
    requires var pc := s.txns[p].pc; !IsToken(pc.job) && pc.user == pc.job.user
    ensures IsPath(st, states, acts) && states[0] == s
    ensures var t, job := Last(states), s.txns[p].pc.job;
      && p in t.txns && t.txns[p].pc.Finished? && Adds(t.txns[p].writes, jti, family)
      && t.known == s.known && t.origins == s.origins[family := Origin(job.user, s.clock)]
      && t.openedWith == s.openedWith[family := job.password]
  {
    hide IsPath, Step, Adds;
    var job := s.txns[p].pc.job;
    states, acts := Here(st, s);
    var listing, more, moves;
    var s1;
    if job.Login? {
      s1 := OpensNow(st, s, p, jti, secret, family);
      states, acts := Then(st, states, acts, OpenFamily(p, jti, secret, family), s1);
      s1, listing := ListsNow(st, s1, p);
      states, acts := Then(st, states, acts, ListFamilies(p, listing), s1);
    } else {
      s1, listing := ListsNow(st, s, p);
      states, acts := Then(st, states, acts, ListFamilies(p, listing), s1);
    }
    more, moves := RevokesAll(st, s1, p, jti, family);
    states, acts := Onward(st, states, acts, more, moves);
    s1 := Last(states);
    if job.Login? {
      var s2 := EvictionsEnd(st, s1, p);
      states, acts := Then(st, states, acts, RevokeNext(p), s2);
    } else {
      var s2 := OpensNow(st, s1, p, jti, secret, family);
      states, acts := Then(st, states, acts, OpenFamily(p, jti, secret, family), s2);
    }
  }

  lemma EvictionsEnd(st: Settings, s: Sys, p: Pid) returns (s': Sys)
    requires p in s.txns && s.txns[p].pc.Revoking? && s.txns[p].pc.job.Login? && s.txns[p].pc.queue == []
    ensures Step(st, s, RevokeNext(p), s') && Further(s, s', p) && s'.locks == s.locks
    ensures s'.txns[p] == Txn(Finished(Some(s.txns[p].pc.user), LoggedIn), s.txns[p].writes)
  {
    s' := SetPc(s, p, Finished(Some(s.txns[p].pc.user), LoggedIn), s.txns[p].writes);
  }

  /** A login or a change of password whose password has been checked, while the user's bucket is free. */
  ghost predicate Ready(s: Sys, p: Pid) {
    && p in s.txns && s.txns[p].pc.Known?
    && var pc := s.txns[p].pc; !IsToken(pc.job) && pc.user == pc.job.user && Bucket(pc.user) !in s.locks
  }

  /** It can run to its end, and the family that it opens is then committed. */
  lemma ReadyRunsThrough(st: Settings, s: Sys, p: Pid, jti: Jti, secret: nat, family: Family)
    returns (states: seq<Sys>, acts: seq<Action>)
    requires Ready(s, p) && jti !in s.issued && family !in s.origins
    ensures IsPath(st, states, acts) && states[0] == s
    ensures var t, job := Last(states), s.txns[p].pc.job;
      && family in t.known && family in t.origins && t.origins[family].user == job.user
      && family in t.openedWith && t.openedWith[family] == job.password
  {
    var job := s.txns[p].pc.job;
    var s1 := SetPc(s, p, Holding(job, job.user), map[]).(locks := s.locks[Bucket(job.user) := p]);
    assert Step(st, s, TakeLock(p), s1);
    hide IsPath, Step;
    states, acts := Here(st, s);
    states, acts := Then(st, states, acts, TakeLock(p), s1);
    var more, moves := UpToTheCommit(st, s1, p, jti, secret, family);
    states, acts := Onward(st, states, acts, more, moves);
    var s2 := Last(states);
    var s3 := CommitsNow(st, s2, p, jti, family);
    states, acts := Then(st, states, acts, Commit(p), s3);
  }

  lemma CommitsNow(st: Settings, s: Sys, p: Pid, jti: Jti, family: Family) returns (s': Sys)
    requires p in s.txns && s.txns[p].pc.Finished? && Adds(s.txns[p].writes, jti, family)
    ensures Step(st, s, Commit(p), s') && family in s'.known && s'.origins == s.origins && s'.openedWith == s.openedWith
  {
    var w := s.txns[p].writes;
    var families := set j | j in w :: w[j].family;
    assert w[jti].family in families;
    hide View, NewlyRotated, NewPasswords;
    s' := Release(s, p).(rows := View(s.rows, w), past := s.past + w.Keys, known := s.known + families,
                         passwords := NewPasswords(s, s.txns[p].pc.result),
                         rotated := s.rotated + NewlyRotated(s.txns[p].pc.result));
  }

  // ---------- Who still comes in with an old password ----------

  /** After the commit the bucket is free: a transaction of the user that is past its check waits for it. */
  lemma OldCheckIsReady(st: Settings, s: Sys, p: Pid, s': Sys, user: int, q: Pid)
    requires SysOk(st, s) && SysOk(st, s') && StepCommit(s, p, s') && Owner(s.txns[p].pc) == Some(user)
    requires q in s'.txns && Verified(s'.txns[q].pc).Some? && Verified(s'.txns[q].pc).value.user == user
    ensures Ready(s', q) && s'.txns[q].pc.job == Verified(s'.txns[q].pc).value
  {
    hide Inv, SysOk, WriteOk, View, Closed;
    BucketIsFree(st, s, p, s', user);
    hide StepCommit;
    TheTxn(st, s', q);
  }

  /** After the commit of a change of password, no continuation of the run commits a family of the user that
      was opened with an older password, if and only if no open transaction of the user has had an older
      password checked. */
  lemma NoOldPasswordComesInExactlyWhen(st: Settings, states: seq<Sys>, acts: seq<Action>, p: Pid, user: int,
                                        newest: Family, n: Time)
    requires IsRun(st, states, acts) && acts != [] && acts[|acts| - 1] == Commit(p)
    requires var s := states[|acts| - 1]; p in s.txns && s.txns[p].pc == Finished(Some(user), Changed(user, newest, n))
    ensures NoOldCheck(Last(states), user)
       <==> forall more, moves | IsPath(st, more, moves) && more[0] == Last(states) ::
              NoneFromOld(more[0], Last(more), user)
  {
    hide Inv, SysOk, NoneFromOld, AllFine;
    var s, s' := states[|acts| - 1], Last(states);
    Reachable(st, states, acts, |acts| - 1);
    Reachable(st, states, acts, |acts|);
    assert Step(st, s, acts[|acts| - 1], s');
    hide IsRun, Step;
    if NoOldCheck(s', user) {
      ChangeStartsFine(st, s, p, s', user);
      forall more, moves | IsPath(st, more, moves) && more[0] == s' ensures NoneFromOld(s', Last(more), user) {
        FineOnPath(st, more, moves, user);
      }
    } else {
      var more, moves := OldOneComesIn(st, s, p, s', user);
      assert !NoneFromOld(more[0], Last(more), user);
    }
  }

  lemma FineOnPath(st: Settings, more: seq<Sys>, moves: seq<Action>, user: int)
    requires IsPath(st, more, moves) && SysOk(st, more[0])
    requires AllFine(more[0], more[0].known, user, Password(more[0], user))
    ensures NoneFromOld(more[0], Last(more), user)
  {
    hide SysOk;
    PathKeepsFine(st, more, moves, |moves|, more[0].known, user, Password(more[0], user));
    hide IsPath;
  }

  lemma OldOneComesIn(st: Settings, s: Sys, p: Pid, s': Sys, user: int) returns (more: seq<Sys>, moves: seq<Action>)
    requires SysOk(st, s) && SysOk(st, s') && StepCommit(s, p, s') && Owner(s.txns[p].pc) == Some(user)
    requires !NoOldCheck(s', user)
    ensures IsPath(st, more, moves) && more[0] == s' && !NoneFromOld(s', Last(more), user)
  {
    hide SysOk, Verified, IsPath, Ready;
    var q :| q in s'.txns && Verified(s'.txns[q].pc).Some? && Verified(s'.txns[q].pc).value.user == user
             && Verified(s'.txns[q].pc).value.password < Password(s', user);
    OldCheckIsReady(st, s, p, s', user, q);
    hide StepCommit;
    var jti := Fresh(s'.issued.Keys);
    var family := Fresh(s'.origins.Keys);
    assert family !in s'.known by { if family in s'.known { KnownFamily(st, s', family); } }
    more, moves := ReadyRunsThrough(st, s', q, jti, 0, family);
  }

  /** It does happen: user 7 logs in with the first password, the password is changed while the login waits
      for the lock, and then the login goes on and opens family 30 with the old one. */
  lemma OldPasswordComesIn() returns (st: Settings, states: seq<Sys>, acts: seq<Action>, c: nat)
    ensures st.Valid() && IsRun(st, states, acts) && c < |acts| && acts[c] == Commit(2) && 2 in states[c].txns
    ensures states[c].txns[2].pc == Finished(Some(7), Changed(7, 20, 0)) && Password(states[c + 1], 7) == 1
    ensures 30 !in states[c + 1].known && 30 in Last(states).known && 30 in Last(states).openedWith
    ensures Last(states).openedWith[30] == 0
  {
    st := Settings(300, 1000, 5);
    states, acts := CheckedLogin(st);
    var s := Last(states);
    var more, moves := ChangeRuns(st, s, 2, ChangePassword(7, 0), 2, 22, 20);
    var s1 := WithLogin(st, s, ChangePassword(7, 0), 2, 22, 20);
    OldLoginGoesOn(st, s, s1);
    hide IsRun, IsPath, WithLogin, First, ActiveFamilies, Ready;
    c := |acts| + |moves| - 1;
    JoinRun(st, states, acts, more, moves);
    RunLengths(st, states, acts, more, moves);
    states, acts := states + more[1..], acts + moves;
    var rest, last := ReadyRunsThrough(st, s1, 1, 3, 33, 30);
    JoinRun(st, states, acts, rest, last);
    RunLengths(st, states, acts, rest, last);
    states, acts := states + rest[1..], acts + last;
  }

  /** User 7 has had the password checked and waits; nothing else has happened. */
  ghost predicate LoginWaits(s: Sys) {
    && s.txns == map[1 := Txn(Known(Login(7, 0), 7), map[])] && s.rows == map[] && s.clock == 0 && s.enabled == {7}
    && s.locks == map[] && s.issued == map[] && s.origins == map[] && s.known == {} && s.passwords == map[]
  }

  lemma OldLoginGoesOn(st: Settings, s: Sys, s1: Sys)
    requires LoginWaits(s) && s1 == WithLogin(st, s, ChangePassword(7, 0), 2, 22, 20)
    ensures Ready(s1, 1) && s1.txns[1].pc.job == Login(7, 0) && Password(s1, 7) == 1
    ensures 30 !in s1.known && 30 !in s1.origins && 3 !in s1.issued
  {
  }

  lemma CheckedLogin(st: Settings) returns (states: seq<Sys>, acts: seq<Action>)
    ensures IsRun(st, states, acts) && LoginWaits(Last(states)) && ActiveFamilies(Last(states).rows, 7, 0) == {}
  {
    var s0 := Sys(map[], 0, 0, {7}, map[], map[], map[], map[], map[], map[], {}, {}, []);
    var s1 := SetPc(s0, 1, Begun(Login(7, 0)), map[]);
    var s2 := SetPc(s1, 1, Known(Login(7, 0), 7), map[]);
    states, acts := Here(st, s0);
    states, acts := Then(st, states, acts, Begin(1, Login(7, 0)), s1);
    states, acts := Then(st, states, acts, ReadUser(1), s2);
    PathIsRun(st, states, acts);
  }
}
