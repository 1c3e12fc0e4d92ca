/** The bound on a user's sessions, over whole runs of RefreshConcurrent: what breaks it, and that
    nothing else does. */
module RefreshSessions {
  import opened Wrappers
  import opened RefreshTable
  import opened RefreshService
  import opened RefreshConcurrent
  import opened RefreshSafety
  import opened RefreshRuns
  import RefreshLaws

  ghost predicate Within(st: Settings, t: Table, user: int, now: Time) {
    |ActiveFamilies(t, user, now)| <= st.maxSessions
  }

  ghost predicate FamilyOnly(w: Table, f: Family) { forall j | j in w :: w[j].family == f }

  /** Unless the user is one of the late ones, the transaction will leave the user within the bound. */
  ghost predicate Prompt(st: Settings, s: Sys, x: Txn, user: int, late: set<int>) {
    user !in late ==> Within(st, Settled(s.rows, x), user, s.clock)
  }

  /** What an open transaction writes, and what it will leave its user with when it commits. */
  ghost predicate CapOk(st: Settings, s: Sys, x: Txn, late: set<int>) {
    match x.pc
    case Inserted(_, row, _) => FamilyOnly(x.writes, row.family) && Prompt(st, s, x, row.user, late)
    case Marked(row) => FamilyOnly(x.writes, row.family) && Prompt(st, s, x, row.user, late)
    case Revoking(job, u, keep, queue, _) =>
      && |keep| <= st.maxSessions && (job.ChangePassword? ==> keep == {})
      && ActiveFamilies(Settled(s.rows, x), u, s.clock) <= keep + ToSet(queue)
    case Finished(Some(u), r) =>
      (match r
       case Invalid => true
       case Renewed(j) => j in s.issued && FamilyOnly(x.writes, s.issued[j]) && Prompt(st, s, x, u, late)
       case LoggedIn => Within(st, Settled(s.rows, x), u, s.clock)
       case Changed(_, _, _) => Within(st, Settled(s.rows, x), u, s.clock)
       case _ => FamilyOnly(x.writes, r.family))
    case _ => true
  }

  ghost predicate SessionsOk(st: Settings, s: Sys, late: set<int>) {
    && (forall u | u !in late :: Within(st, s.rows, u, s.clock))
    && (forall p | p in s.txns :: CapOk(st, s, s.txns[p], late))
  }

  /** The user whose rotation inserts a successor after its predecessor has expired. */
  ghost function LateOf(s: Sys, a: Action): set<int> {
    if a.InsertNext? && a.p in s.txns && s.txns[a.p].pc.Checked?
       && s.txns[a.p].pc.row.expiresAt <= s.clock < s.txns[a.p].pc.row.absoluteAt
    then {s.txns[a.p].pc.row.user} else {}
  }

  // ---------- Tables with fewer active rows ----------

  ghost predicate Shrinks(t: Table, t': Table, user: int, now: Time, now': Time) {
    forall j | j in t' && Active(t'[j], user, now') :: j in t && t[j].family == t'[j].family && Active(t[j], user, now)
  }

  lemma ShrinkKeepsWithin(st: Settings, t: Table, t': Table, user: int, now: Time, now': Time)
    requires Shrinks(t, t', user, now, now')
    ensures ActiveFamilies(t', user, now') <= ActiveFamilies(t, user, now)
    ensures Within(st, t, user, now) ==> Within(st, t', user, now')
  {
    forall f | f in ActiveFamilies(t', user, now') ensures f in ActiveFamilies(t, user, now) {
      var j :| j in t' && Active(t'[j], user, now') && t'[j].family == f;
    }
    RefreshLaws.SubsetSize(ActiveFamilies(t', user, now'), ActiveFamilies(t, user, now));
  }

  function User(pc: Pc): int { if Owner(pc).Some? then Owner(pc).value else 0 }

  lemma ShrinkKeepsCap(st: Settings, s: Sys, s': Sys, x: Txn, late: set<int>)
    requires CapOk(st, s, x, late) && forall j | j in s.issued :: j in s'.issued && s'.issued[j] == s.issued[j]
    requires Shrinks(Settled(s.rows, x), Settled(s'.rows, x), User(x.pc), s.clock, s'.clock)
    ensures CapOk(st, s', x, late)
  {
    hide Settled, Shrinks, Within, FamilyOnly;
    ShrinkKeepsWithin(st, Settled(s.rows, x), Settled(s'.rows, x), User(x.pc), s.clock, s'.clock);
  }

  // ---------- Steps of one transaction ----------

  lemma MovesKeepsSessions(st: Settings, s: Sys, s': Sys, p: Pid, late: set<int>, more: set<int>)
    requires SessionsOk(st, s, late) && Moves(s, s', p) && late <= more
    requires CapOk(st, s', s'.txns[p], more)
    ensures SessionsOk(st, s', more)
  {
    hide Settled, Within, FamilyOnly;
    forall q | q in s'.txns && q != p ensures CapOk(st, s', s'.txns[q], more) {
      assert CapOk(st, s, s.txns[q], late);
    }
  }

  lemma ReadRowCap(st: Settings, s: Sys, p: Pid, s': Sys, late: set<int>)
    requires StepReadRow(s, p, s')
    ensures p in s'.txns && CapOk(st, s', s'.txns[p], late)
  {
    AfterSetPc(s, p);
    hide SetPc, Within, Settled;
  }

  lemma RejectCap(st: Settings, s: Sys, p: Pid, s': Sys, late: set<int>)
    requires StepReject(s, p, s') && s.txns[p].writes == map[]
    ensures p in s'.txns && CapOk(st, s', s'.txns[p], late)
  {
    RejectShape(s, p, s');
    var x := s.txns[p];
    hide StepReject, Within, Settled, RevokeIn, Renewable, IsReuse;
    RevokedFamilyOnly(s.rows, map[], x.pc.row.family, LoggedOut, s.clock);
    if x.pc.job.Refresh? { RevokedFamilyOnly(s.rows, map[], x.pc.row.family, ReuseDetected, x.pc.job.checked); }
    hide FamilyOnly;
  }

  lemma RevokedFamilyOnly(rows: Table, w: Table, f: Family, reason: Reason, now: Time)
    requires FamilyOnly(w, f)
    ensures FamilyOnly(RevokeIn(rows, w, f, reason, now), f)
  {
  }

  lemma InsertNextCap(st: Settings, s: Sys, p: Pid, next: Jti, secret: nat, s': Sys, late: set<int>)
    requires st.Valid() && SysOk(st, s) && StepInsertNext(st, s, p, next, secret, s') && SessionsOk(st, s, late)
    ensures p in s'.txns && CapOk(st, s', s'.txns[p], late + LateOf(s, InsertNext(p, next, secret)))
  {
    hide Inv, SysOk, WriteOk, Settled, Renewable, Within, Rotate;
    TheTxn(st, s, p);
    var row := s.txns[p].pc.row;
    if row.user !in late + LateOf(s, InsertNext(p, next, secret)) {
      PromptInsert(st, s, p, next, secret, s');
    }
  }

  lemma PromptInsert(st: Settings, s: Sys, p: Pid, next: Jti, secret: nat, s': Sys)
    requires st.Valid() && StepInsertNext(st, s, p, next, secret, s') && TableOk(st, s) && TxnOk(st, s, p, s.txns[p])
    requires Within(st, s.rows, s.txns[p].pc.row.user, s.clock)
    requires s.txns[p].pc.row.expiresAt > s.clock || s.clock >= s.txns[p].pc.row.absoluteAt
    ensures Within(st, Settled(s'.rows, s'.txns[p]), s.txns[p].pc.row.user, s.clock)
  {
    hide Inv, WriteOk, Settled, Renewable, Within, Rotate, TableOk;
    var pc := s.txns[p].pc;
    InsertNextTable(st, s, p, next, secret, s');
    FreshJti(st, s, next);
    RefreshLaws.RotationKeepsActiveFamiliesExactlyWhenPrompt(st, s.origins, s.rows, pc.row.jti, s.nextId,
                                                             Draw(next, secret), pc.job.checked, s.clock);
    SameWithin(st, s.rows, Settled(s'.rows, s'.txns[p]), pc.row.user, s.clock);
  }

  lemma FreshJti(st: Settings, s: Sys, next: Jti)
    requires TableOk(st, s) && next !in s.issued
    ensures next !in s.rows && Inv(st, s.origins, s.rows)
  {
    hide Inv;
    assert forall j | j in s.rows :: Stored(s, j, s.rows[j]);
  }

  lemma SameWithin(st: Settings, t: Table, t': Table, user: int, now: Time)
    requires Within(st, t, user, now) && ActiveFamilies(t', user, now) == ActiveFamilies(t, user, now)
    ensures Within(st, t', user, now)
  {
  }

  lemma MarkOldCap(st: Settings, s: Sys, p: Pid, s': Sys, late: set<int>)
    requires p in s.txns && PcOk(s, s.txns[p]) && StepMarkOld(s, p, s') && CapOk(st, s, s.txns[p], late)
    ensures p in s'.txns && CapOk(st, s', s'.txns[p], late)
  {
    hide Within, Settled;
    MarkOldSettles(s, p, s');
    hide PcOk;
  }

  lemma MarkOldSettles(s: Sys, p: Pid, s': Sys)
    requires StepMarkOld(s, p, s') && PcOk(s, s.txns[p])
    ensures Settled(s'.rows, s'.txns[p]) == Settled(s.rows, s.txns[p])
  {
  }

  lemma CheckUserCap(st: Settings, s: Sys, p: Pid, s': Sys, late: set<int>)
    requires SysOk(st, s) && StepCheckUser(s, p, s') && CapOk(st, s, s.txns[p], late)
    ensures p in s'.txns && CapOk(st, s', s'.txns[p], late)
  {
    MarkedRowIsStored(st, s, p, s');
    hide SysOk;
    CheckedCap(st, s, p, s', late);
  }

  lemma CheckedCap(st: Settings, s: Sys, p: Pid, s': Sys, late: set<int>)
    requires StepCheckUser(s, p, s') && CapOk(st, s, s.txns[p], late)
    requires s.txns[p].pc.row.jti in s.issued && s.issued[s.txns[p].pc.row.jti] == s.txns[p].pc.row.family
    ensures p in s'.txns && CapOk(st, s', s'.txns[p], late)
  {
    CheckShape(s, p, s');
    var x := s.txns[p];
    RevokedFamilyOnly(s.rows, x.writes, x.pc.row.family, LoggedOut, s.clock);
    hide StepCheckUser, Within, RevokeIn, FamilyOnly, View;
  }

  /** After a change of password the new family is the only active one. */
  lemma OpenFamilyCap(st: Settings, s: Sys, p: Pid, jti: Jti, secret: nat, family: Family, s': Sys, late: set<int>)
    requires st.Valid() && StepOpenFamily(st, s, p, jti, secret, family, s') && CapOk(st, s, s.txns[p], late)
    ensures p in s'.txns && CapOk(st, s', s'.txns[p], late)
  {
    hide ActiveFamilies, View, NewRow;
    var x := s.txns[p];
    if x.pc.Revoking? {
      var n := s'.txns[p].writes[jti];
      OneMoreWrite(s.rows, x.writes, jti, n);
      OnlyTheNewFamily(st, View(s.rows, x.writes), jti, n, x.pc.user, s.clock);
    }
  }

  lemma OneMoreWrite(rows: Table, writes: Table, jti: Jti, n: Row)
    ensures View(rows, writes[jti := n]) == View(rows, writes)[jti := n]
  {
  }

  lemma OnlyTheNewFamily(st: Settings, t: Table, jti: Jti, n: Row, user: int, now: Time)
    requires st.Valid() && ActiveFamilies(t, user, now) == {}
    ensures Within(st, t[jti := n], user, now)
  {
    assert forall j | j in t && Active(t[j], user, now) :: t[j].family in ActiveFamilies(t, user, now);
    RefreshLaws.SubsetSize(ActiveFamilies(t[jti := n], user, now), {n.family});
  }

  lemma ListFamiliesCap(st: Settings, s: Sys, p: Pid, listing: seq<Family>, s': Sys, late: set<int>)
    requires StepListFamilies(st, s, p, listing, s') && PcOk(s, s.txns[p])
    ensures p in s'.txns && CapOk(st, s', s'.txns[p], late)
  {
    AfterSetPc(s, p);
    hide ActiveFamilies, View, IsListing, Kept, Overflow, ToSet, SetPc;
    var x := s.txns[p];
    ListedAreActive(View(s.rows, x.writes), x.pc.user, s.clock, listing);
    KeptAndOverflow(st, listing);
  }

  lemma ListedAreActive(t: Table, user: int, now: Time, listing: seq<Family>)
    requires IsListing(t, user, now, listing)
    ensures ActiveFamilies(t, user, now) == ToSet(listing)
  {
  }

  lemma KeptAndOverflow(st: Settings, listing: seq<Family>)
    ensures |Kept(st, listing)| <= st.maxSessions
    ensures ToSet(listing) == Kept(st, listing) + ToSet(Overflow(st, listing))
  {
    ToSetSize(if |listing| <= st.maxSessions then listing else listing[..st.maxSessions]);
    if |listing| > st.maxSessions {
      assert listing == listing[..st.maxSessions] + listing[st.maxSessions..];
    }
  }

  lemma RevokeNextCap(st: Settings, s: Sys, p: Pid, s': Sys, late: set<int>)
    requires StepRevokeNext(s, p, s') && CapOk(st, s, s.txns[p], late)
    ensures p in s'.txns && CapOk(st, s', s'.txns[p], late)
  {
    hide CapOk, RevokeIn;
    if s.txns[p].pc.queue != [] { RevokeHeadCap(st, s, p, s', late); } else { QueueDoneCap(st, s, p, s', late); }
  }

  lemma RevokeHeadCap(st: Settings, s: Sys, p: Pid, s': Sys, late: set<int>)
    requires StepRevokeNext(s, p, s') && CapOk(st, s, s.txns[p], late) && s.txns[p].pc.queue != []
    ensures p in s'.txns && CapOk(st, s', s'.txns[p], late)
  {
    AfterSetPc(s, p);
    hide RevokeFamilies, RevokeIn, View, ActiveFamilies, ToSet, SetPc;
    var x := s.txns[p];
    var reason := if x.pc.job.Login? then ConcurrencyLimit else PasswordChanged;
    RevokeInView(s.rows, x.writes, x.pc.queue[0], reason, x.pc.listedAt);
    OneLessActive(View(s.rows, x.writes), x.pc.user, s.clock, x.pc.queue[0], reason, x.pc.listedAt);
    HeadAndTail(x.pc.queue);
  }

  lemma HeadAndTail<T>(queue: seq<T>)
    requires queue != []
    ensures ToSet(queue) == ToSet(queue[1..]) + {queue[0]}
  {
    assert queue == [queue[0]] + queue[1..];
  }

  lemma QueueDoneCap(st: Settings, s: Sys, p: Pid, s': Sys, late: set<int>)
    requires StepRevokeNext(s, p, s') && CapOk(st, s, s.txns[p], late) && s.txns[p].pc.queue == []
    ensures p in s'.txns && CapOk(st, s', s'.txns[p], late)
  {
    AfterSetPc(s, p);
    hide View, ActiveFamilies, SetPc, RevokeIn;
    var x := s.txns[p];
    RefreshLaws.SubsetSize(ActiveFamilies(View(s.rows, x.writes), x.pc.user, s.clock), x.pc.keep);
  }

  lemma OneLessActive(t: Table, user: int, now: Time, f: Family, reason: Reason, at: Time)
    ensures ActiveFamilies(RevokeFamilies(t, {f}, reason, at), user, now) <= ActiveFamilies(t, user, now) - {f}
  {
    var t' := RevokeFamilies(t, {f}, reason, at);
    forall g | g in ActiveFamilies(t', user, now) ensures g in ActiveFamilies(t, user, now) - {f} {
      var j :| j in t' && Active(t'[j], user, now) && t'[j].family == g;
      assert Active(t[j], user, now);
    }
  }

  lemma BeginCap(st: Settings, s: Sys, p: Pid, job: Job, s': Sys, late: set<int>)
    requires Step(st, s, Begin(p, job), s')
    ensures p in s'.txns && CapOk(st, s', s'.txns[p], late)
  {
    AfterSetPc(s, p);
    hide SetPc;
  }

  lemma ReadUserCap(st: Settings, s: Sys, p: Pid, s': Sys, late: set<int>)
    requires StepReadUser(s, p, s')
    ensures p in s'.txns && CapOk(st, s', s'.txns[p], late)
  {
    ReadUserShape(s, p, s');
    hide StepReadUser;
  }

  lemma TakeLockCap(st: Settings, s: Sys, p: Pid, s': Sys, late: set<int>)
    requires StepTakeLock(s, p, s')
    ensures p in s'.txns && CapOk(st, s', s'.txns[p], late)
  {
  }

  lemma MoveKeepsSessions(st: Settings, s: Sys, a: Action, s': Sys, p: Pid, late: set<int>)
    requires st.Valid() && SysOk(st, s) && SessionsOk(st, s, late) && Step(st, s, a, s') && StepOf(a, p)
    ensures SessionsOk(st, s', late + LateOf(s, a))
  {
    hide Inv, SysOk, CapOk, StepReadUser, StepTakeLock, StepReadRow, StepReject, StepInsertNext, StepMarkOld,
         StepCheckUser, StepOpenFamily, StepListFamilies, StepRevokeNext, Within;
    StepMoves(st, s, a, s', p);
    if !a.Begin? { Mover(st, s, a, s', p); }
    var more := late + LateOf(s, a);
    match a {
      case Begin(_, job) => BeginCap(st, s, p, job, s', more);
      case ReadUser(_) => ReadUserCap(st, s, p, s', more);
      case TakeLock(_) => TakeLockCap(st, s, p, s', more);
      case ReadRow(_) => ReadRowCap(st, s, p, s', more);
      case Reject(_) => CheckedWritesNothing(st, s, p, s'); RejectCap(st, s, p, s', more);
      case InsertNext(_, next, secret) => InsertNextCap(st, s, p, next, secret, s', late);
      case MarkOld(_) => PcIsOk(st, s, p); MarkOldCap(st, s, p, s', late);
      case CheckUser(_) => CheckUserCap(st, s, p, s', late);
      case OpenFamily(_, jti, secret, family) => OpenFamilyCap(st, s, p, jti, secret, family, s', late);
      case ListFamilies(_, listing) => PcIsOk(st, s, p); ListFamiliesCap(st, s, p, listing, s', more);
      case RevokeNext(_) => RevokeNextCap(st, s, p, s', late);
    }
    assert !a.InsertNext? ==> more == late;
    MovesKeepsSessions(st, s, s', p, late, more);
  }

  lemma Mover(st: Settings, s: Sys, a: Action, s': Sys, p: Pid)
    requires Step(st, s, a, s') && StepOf(a, p) && !a.Begin?
    ensures p in s.txns
  {
    hide SetPc, Renewable, RevokeIn, IsListing;
  }

  lemma CheckedWritesNothing(st: Settings, s: Sys, p: Pid, s': Sys)
    requires SysOk(st, s) && StepReject(s, p, s')
    ensures s.txns[p].writes == map[]
  {
    hide Inv, SysOk, WriteOk;
    TheTxn(st, s, p);
  }

  lemma PcIsOk(st: Settings, s: Sys, p: Pid)
    requires SysOk(st, s) && p in s.txns
    ensures PcOk(s, s.txns[p])
  {
    hide Inv, WriteOk, PcOk;
    TheTxn(st, s, p);
  }

  // ---------- What a commit does to its user's sessions ----------

  /** A rotation takes its family out of the active ones, and puts it in if the successor is unexpired. */
  lemma RenewedFamilies(st: Settings, s: Sys, p: Pid, u: int, j: Jti)
    requires SysOk(st, s) && p in s.txns && s.txns[p].pc == Finished(Some(u), Result.Renewed(j))
    requires j in s.issued && FamilyOnly(s.txns[p].writes, s.issued[j])
    ensures j in s.rows && s.rows[j].revokedAt.None?
    ensures s.issued[j] in ActiveFamilies(s.rows, u, s.clock) <==> s.rows[j].expiresAt > s.clock
    ensures ActiveFamilies(View(s.rows, s.txns[p].writes), u, s.clock)
         == ActiveFamilies(s.rows, u, s.clock) - {s.issued[j]}
            + if BringsLive(s, s.txns[p], u) then {s.issued[j]} else {}
  {
    hide Inv, WriteOk, SysOk;
    TheTxn(st, s, p);
    TxnOwnsWrites(st, s, p, s.txns[p]);
    StoredUser(st, s, j);
    OnlyLiveRow(st, s, j);
    hide TxnOk, TableOk;
    RenewedActive(s, s.txns[p], u, j, s.issued[j]);
  }

  lemma OnlyLiveRow(st: Settings, s: Sys, j: Jti)
    requires TableOk(st, s) && j in s.rows && s.rows[j].revokedAt.None?
    ensures forall k | k in s.rows && s.rows[k].family == s.rows[j].family && s.rows[k].revokedAt.None? :: k == j
  {
    forall k | k in s.rows && s.rows[k].family == s.rows[j].family && s.rows[k].revokedAt.None? ensures k == j {
      OneLiveRow(st, s.origins, s.rows, j, k);
    }
  }

  /** The transaction commits an unexpired row of the user. */
  ghost predicate BringsLive(s: Sys, x: Txn, u: int) {
    exists k :: k in x.writes && Active(x.writes[k], u, s.clock)
  }

  lemma RenewedActive(s: Sys, x: Txn, u: int, j: Jti, f: Family)
    requires OwnWrites(s, x) && Owner(x.pc) == Some(u) && FamilyOnly(x.writes, f)
    requires Rotating(s, x, j) && s.rows[j].family == f
    requires forall k | k in s.rows && s.rows[k].family == f && s.rows[k].revokedAt.None? :: k == j
    ensures f in ActiveFamilies(s.rows, u, s.clock) <==> s.rows[j].expiresAt > s.clock
    ensures ActiveFamilies(View(s.rows, x.writes), u, s.clock)
         == ActiveFamilies(s.rows, u, s.clock) - {f} + if BringsLive(s, x, u) then {f} else {}
  {
    var v := View(s.rows, x.writes);
    var before, after := ActiveFamilies(s.rows, u, s.clock), ActiveFamilies(v, u, s.clock);
    assert s.rows[j].expiresAt > s.clock ==> Active(s.rows[j], u, s.clock);
    forall g | g in before && g != f ensures g in after {
      var k :| k in s.rows && Active(s.rows[k], u, s.clock) && s.rows[k].family == g;
      assert k in v && v[k] == s.rows[k];
    }
    forall g | g in after ensures if g == f then BringsLive(s, x, u) else g in before {
      var k :| k in v && Active(v[k], u, s.clock) && v[k].family == g;
      assert k !in x.writes ==> k in s.rows && s.rows[k] == v[k];
    }
    if BringsLive(s, x, u) {
      var k :| k in x.writes && Active(x.writes[k], u, s.clock);
      assert k in v && v[k] == x.writes[k];
    }
  }

  /** Reuse detection, logout and the refusal of a disabled user bring back no session. */
  lemma RefusalAddsNothing(s: Sys, x: Txn, u: int)
    requires OwnWrites(s, x) && x.pc.Finished? && (x.pc.result.Invalid? ==> x.writes == map[])
    requires x.pc.result.Reused? || x.pc.result.Ended? || x.pc.result.Denied? ==>
               FamilyOnly(x.writes, x.pc.result.family) && Dead(View(s.rows, x.writes), x.pc.result.family)
    requires !x.pc.result.Renewed? && !x.pc.result.LoggedIn? && !x.pc.result.Changed?
    ensures ActiveFamilies(View(s.rows, x.writes), u, s.clock) <= ActiveFamilies(s.rows, u, s.clock)
  {
    var v := View(s.rows, x.writes);
    forall g | g in ActiveFamilies(v, u, s.clock) ensures g in ActiveFamilies(s.rows, u, s.clock) {
      var k :| k in v && Active(v[k], u, s.clock) && v[k].family == g;
      assert k in s.rows && s.rows[k] == v[k];
    }
  }

  /** This commit pushes the user over the bound: it renews a token that has expired meanwhile, by one
      that has not, while the user has all the sessions allowed. */
  ghost predicate OverflowsFor(st: Settings, s: Sys, a: Action, u: int) {
    && a.Commit? && a.p in s.txns && s.txns[a.p].pc.Finished? && s.txns[a.p].pc.owner == Some(u)
    && s.txns[a.p].pc.result.Renewed?
    && s.txns[a.p].pc.result.from in s.rows && s.rows[s.txns[a.p].pc.result.from].expiresAt <= s.clock
    && BringsLive(s, s.txns[a.p], u)
    && |ActiveFamilies(s.rows, u, s.clock)| == st.maxSessions
  }

  lemma OwnCommitExactlyWhen(st: Settings, s: Sys, p: Pid, s': Sys, u: int, late: set<int>)
    requires SysOk(st, s) && SessionsOk(st, s, late) && Within(st, s.rows, u, s.clock)
    requires StepCommit(s, p, s') && s.txns[p].pc.owner == Some(u)
    ensures Within(st, s'.rows, u, s'.clock) <==> !OverflowsFor(st, s, Commit(p), u)
  {
    var x := s.txns[p];
    assert CapOk(st, s, x, late);
    AfterRelease(s, p, s');
    hide SessionsOk, SysOk, StepCommit, View, ActiveFamilies, BringsLive, FamilyOnly;
    if x.pc.result.Renewed? {
      RenewalExactlyWhen(st, s, p, u, x.pc.result.from);
    } else if !x.pc.result.LoggedIn? && !x.pc.result.Changed? {
      RefusedWrites(st, s, p);
      RefusalAddsNothing(s, x, u);
      RefreshLaws.SubsetSize(ActiveFamilies(s'.rows, u, s'.clock), ActiveFamilies(s.rows, u, s.clock));
    }
  }

  lemma AfterRelease(s: Sys, p: Pid, s': Sys)
    requires StepCommit(s, p, s')
    ensures s'.rows == View(s.rows, s.txns[p].writes) && s'.clock == s.clock
  {
    hide View;
  }

  lemma RenewalExactlyWhen(st: Settings, s: Sys, p: Pid, u: int, j: Jti)
    requires SysOk(st, s) && p in s.txns && s.txns[p].pc == Finished(Some(u), Result.Renewed(j))
    requires j in s.issued && FamilyOnly(s.txns[p].writes, s.issued[j]) && Within(st, s.rows, u, s.clock)
    ensures Within(st, View(s.rows, s.txns[p].writes), u, s.clock) <==> !OverflowsFor(st, s, Commit(p), u)
  {
    RenewedFamilies(st, s, p, u, j);
    hide SysOk, View, ActiveFamilies, BringsLive, FamilyOnly;
    OneMore(ActiveFamilies(s.rows, u, s.clock), ActiveFamilies(View(s.rows, s.txns[p].writes), u, s.clock), s.issued[j],
            BringsLive(s, s.txns[p], u), st.maxSessions);
  }

  lemma RefusedWrites(st: Settings, s: Sys, p: Pid)
    requires SysOk(st, s) && p in s.txns && s.txns[p].pc.Finished?
    ensures var x := s.txns[p]; var r := x.pc.result;
      && OwnWrites(s, x) && (r.Invalid? ==> x.writes == map[])
      && (r.Reused? || r.Ended? || r.Denied? ==> Dead(View(s.rows, x.writes), r.family))
  {
    hide Inv, WriteOk, SysOk;
    TheTxn(st, s, p);
    TxnOwnsWrites(st, s, p, s.txns[p]);
  }

  lemma OneMore(before: set<Family>, after: set<Family>, f: Family, live: bool, max: nat)
    requires |before| <= max && after == before - {f} + if live then {f} else {}
    ensures |after| <= max <==> !(f !in before && live && |before| == max)
  {
    if f in before || !live {
      RefreshLaws.SubsetSize(after, before);
    } else {
      assert after == before + {f};
    }
  }

  // ---------- Commit, cleanup, time ----------

  lemma OthersCommitKeepsWithin(st: Settings, s: Sys, p: Pid, s': Sys, u: int)
    requires StepCommit(s, p, s') && OwnWrites(s, s.txns[p]) && Owner(s.txns[p].pc) != Some(u)
    ensures ActiveFamilies(s'.rows, u, s'.clock) == ActiveFamilies(s.rows, u, s.clock)
  {
    ShrinkKeepsWithin(st, s.rows, s'.rows, u, s.clock, s.clock);
    ShrinkKeepsWithin(st, s'.rows, s.rows, u, s.clock, s.clock);
  }

  /** Another transaction's user is not touched by p's commit. */
  lemma CommitKeepsCap(st: Settings, s: Sys, p: Pid, s': Sys, q: Pid, late: set<int>)
    requires SysOk(st, s) && q in s.txns && q != p && CapOk(st, s, s.txns[q], late) && StepCommit(s, p, s')
    requires OwnWrites(s, s.txns[p]) && OwnWrites(s, s.txns[q]) && TxnOk(st, s, q, s.txns[q])
        && TxnOk(st, s, p, s.txns[p])
    ensures CapOk(st, s', s.txns[q], late)
  {
    hide Inv, SysOk, WriteOk, Within, PcOk, Settled, Shrinks, CapOk;
    var x := s.txns[p];
    var y := s.txns[q];
    if Owner(y.pc).Some? {
      if Owner(x.pc).Some? {
        CommitDisturbs(s, x, y, Owner(x.pc).value);
        DisturbedShrinks(s, x.writes, y, Owner(x.pc).value, Owner(y.pc).value, s.clock) by { PinnedRow(st, s, q, y); }
      } else {
        assert View(s.rows, x.writes) == s.rows;
        NothingShrinks(Settled(s.rows, y), User(y.pc), s.clock);
      }
      ShrinkKeepsCap(st, s, s', y, late);
    } else {
      IdleCap(st, s', y, late);
    }
  }

  lemma IdleCap(st: Settings, s: Sys, y: Txn, late: set<int>)
    requires Owner(y.pc).None?
    ensures CapOk(st, s, y, late)
  {
  }

  lemma NothingShrinks(t: Table, user: int, now: Time)
    ensures Shrinks(t, t, user, now, now)
  {
  }

  lemma PinnedRow(st: Settings, s: Sys, q: Pid, y: Txn)
    requires TxnOk(st, s, q, y)
    ensures y.pc.Inserted? ==> IsPinned(s, y.pc.row)
  {
    hide Inv, WriteOk;
  }

  lemma DisturbedShrinks(s: Sys, w: Table, y: Txn, u: int, v: int, now: Time)
    requires Disturbed(s.rows, View(s.rows, w), w, u)
    requires Disturbed(View(s.rows, y.writes), View(View(s.rows, w), y.writes), w, u)
    requires u != v && OwnWrites(s, y) && Owner(y.pc) == Some(v) && (y.pc.Inserted? ==> IsPinned(s, y.pc.row))
    ensures Shrinks(Settled(s.rows, y), Settled(View(s.rows, w), y), v, now, now)
  {
    hide View;
  }

  lemma CommitKeepsSessions(st: Settings, s: Sys, p: Pid, s': Sys, late: set<int>)
    requires SysOk(st, s) && SessionsOk(st, s, late) && StepCommit(s, p, s')
    ensures SessionsOk(st, s', late)
  {
    hide Inv, SysOk, Within, TxnOk, TableOk, OwnWrites, CapOk;
    TheTxn(st, s, p);
    TxnOwnsWrites(st, s, p, s.txns[p]);
    forall u | u !in late ensures Within(st, s'.rows, u, s'.clock) {
      CommitWithin(st, s, p, s', u, late);
    }
    forall q | q in s'.txns ensures CapOk(st, s', s'.txns[q], late) {
      TheTxn(st, s, q);
      TxnOwnsWrites(st, s, q, s.txns[q]);
      CommitKeepsCap(st, s, p, s', q, late);
    }
  }

  lemma CommitWithin(st: Settings, s: Sys, p: Pid, s': Sys, u: int, late: set<int>)
    requires SysOk(st, s) && SessionsOk(st, s, late) && StepCommit(s, p, s') && OwnWrites(s, s.txns[p]) && u !in late
    ensures Within(st, s'.rows, u, s'.clock)
  {
    var x := s.txns[p];
    assert CapOk(st, s, x, late) && Within(st, s.rows, u, s.clock);
    if Owner(x.pc) != Some(u) {
      OthersCommitKeepsWithin(st, s, p, s', u);
    } else if !x.pc.result.Renewed? {
      OwnCommitExactlyWhen(st, s, p, s', u, late);
    }
  }

  lemma CleanupKeepsSessions(st: Settings, s: Sys, cutoff: Time, s': Sys, late: set<int>)
    requires SysOk(st, s) && SessionsOk(st, s, late) && StepCleanup(s, cutoff, s')
    ensures SessionsOk(st, s', late)
  {
    hide Inv, SysOk, Within, TxnOk, TableOk, Settled, CapOk, Shrinks, Unaffected;
    forall u | u !in late ensures Within(st, s'.rows, u, s'.clock) {
      DeletingShrinks(s.rows, cutoff, u, s.clock);
      ShrinkKeepsWithin(st, s.rows, s'.rows, u, s.clock, s.clock);
    }
    forall q | q in s'.txns ensures CapOk(st, s', s'.txns[q], late) {
      TheTxn(st, s, q);
      TxnParts(st, s, q, s.txns[q]);
      CleanupView(s, cutoff, s.txns[q]);
      DeletingShrinks(Settled(s.rows, s.txns[q]), cutoff, User(s.txns[q].pc), s.clock);
      ShrinkKeepsCap(st, s, s', s.txns[q], late);
    }
  }

  lemma DeletingShrinks(t: Table, cutoff: Time, user: int, now: Time)
    ensures Shrinks(t, DeleteExpired(t, cutoff), user, now, now)
  {
  }

  lemma TimeShrinks(t: Table, user: int, now: Time, now': Time)
    requires now <= now'
    ensures Shrinks(t, t, user, now, now')
  {
  }

  lemma TimeKeepsSessions(st: Settings, s: Sys, s': Sys, late: set<int>)
    requires SessionsOk(st, s, late) && s.clock <= s'.clock && s' == s.(clock := s'.clock, enabled := s'.enabled)
    ensures SessionsOk(st, s', late)
  {
    hide Within, Settled, CapOk, Shrinks;
    forall u | u !in late ensures Within(st, s'.rows, u, s'.clock) {
      TimeShrinks(s.rows, u, s.clock, s'.clock);
      ShrinkKeepsWithin(st, s.rows, s'.rows, u, s.clock, s'.clock);
    }
    forall q | q in s'.txns ensures CapOk(st, s', s'.txns[q], late) {
      TimeShrinks(Settled(s.rows, s.txns[q]), User(s.txns[q].pc), s.clock, s'.clock);
      ShrinkKeepsCap(st, s, s', s.txns[q], late);
    }
  }

  lemma AbortKeepsSessions(st: Settings, s: Sys, p: Pid, late: set<int>)
    requires SessionsOk(st, s, late)
    ensures SessionsOk(st, Release(s, p), late)
  {
    hide Within, Settled, FamilyOnly;
    forall q | q in Release(s, p).txns ensures CapOk(st, Release(s, p), s.txns[q], late) {
      assert CapOk(st, s, s.txns[q], late);
    }
  }

  lemma StepKeepsSessions(st: Settings, s: Sys, a: Action, s': Sys, late: set<int>)
    requires st.Valid() && SysOk(st, s) && SessionsOk(st, s, late) && Step(st, s, a, s')
    ensures SessionsOk(st, s', late + LateOf(s, a))
  {
    hide Inv, SysOk, SessionsOk, StepReadUser, StepTakeLock, StepReadRow, StepReject, StepInsertNext, StepMarkOld,
         StepCheckUser, StepOpenFamily, StepListFamilies, StepRevokeNext, StepCommit, StepCleanup;
    assert !a.InsertNext? ==> late + LateOf(s, a) == late;
    match a
    case Tick(_) => TimeKeepsSessions(st, s, s', late);
    case SetUser(_, _) => TimeKeepsSessions(st, s, s', late);
    case Commit(p) => CommitKeepsSessions(st, s, p, s', late);
    case Cleanup(cutoff) => CleanupKeepsSessions(st, s, cutoff, s', late);
    case Abort(p) => AbortKeepsSessions(st, s, p, late);
    case _ => MoveKeepsSessions(st, s, a, s', a.p, late);
  }

  // ---------- Whole runs ----------

  /** The users with a late insertion among the first i steps. */
  ghost function LateUsers(states: seq<Sys>, acts: seq<Action>, i: nat): set<int>
    requires i <= |acts| <= |states|
  {
    if i == 0 then {} else LateUsers(states, acts, i - 1) + LateOf(states[i - 1], acts[i - 1])
  }

  lemma {:induction false} AllSessionsOk(st: Settings, states: seq<Sys>, acts: seq<Action>, i: nat)
    requires st.Valid() && IsRun(st, states, acts) && i < |states|
    ensures SessionsOk(st, states[i], LateUsers(states, acts, i))
  {
    hide Step, SysOk;
    if i > 0 {
      AllSessionsOk(st, states, acts, i - 1);
      Reachable(st, states, acts, i - 1);
      StepKeepsSessions(st, states[i - 1], acts[i - 1], states[i], LateUsers(states, acts, i - 1));
    } else {
      forall u ensures Within(st, states[0].rows, u, states[0].clock) {
        assert ActiveFamilies(states[0].rows, u, states[0].clock) == {};
      }
    }
  }

  /** From a state within the user's bound, a step stays within it if and only if it is not a commit
      that pushes the user over. */
  lemma StepStaysWithinExactlyWhen(st: Settings, s: Sys, a: Action, s': Sys, u: int, late: set<int>)
    requires st.Valid() && SysOk(st, s) && SessionsOk(st, s, late) && Step(st, s, a, s')
    requires Within(st, s.rows, u, s.clock)
    ensures Within(st, s'.rows, u, s'.clock) <==> !OverflowsFor(st, s, a, u)
  {
    hide Inv, SysOk, SessionsOk, Within, StepReadUser, StepTakeLock, StepReadRow, StepReject, StepInsertNext,
         StepMarkOld, StepCheckUser, StepOpenFamily, StepListFamilies, StepRevokeNext, StepCommit;
    match a
    case Tick(_) =>
      TimeShrinks(s.rows, u, s.clock, s'.clock);
      ShrinkKeepsWithin(st, s.rows, s'.rows, u, s.clock, s'.clock);
    case SetUser(_, _) =>
    case Commit(p) => CommitStaysWithinExactlyWhen(st, s, p, s', u, late);
    case Cleanup(cutoff) =>
      DeletingShrinks(s.rows, cutoff, u, s.clock);
      ShrinkKeepsWithin(st, s.rows, s'.rows, u, s.clock, s.clock);
    case Abort(_) =>
    case _ => StepMoves(st, s, a, s', a.p);
  }

  lemma CommitStaysWithinExactlyWhen(st: Settings, s: Sys, p: Pid, s': Sys, u: int, late: set<int>)
    requires SysOk(st, s) && SessionsOk(st, s, late) && StepCommit(s, p, s') && Within(st, s.rows, u, s.clock)
    ensures Within(st, s'.rows, u, s'.clock) <==> !OverflowsFor(st, s, Commit(p), u)
  {
    hide SessionsOk, SysOk;
    if s.txns[p].pc.owner == Some(u) {
      OwnCommitExactlyWhen(st, s, p, s', u, late);
    } else {
      RefusedWrites(st, s, p);
      hide OwnWrites;
      OthersCommitKeepsWithin(st, s, p, s', u);
    }
  }

  /** A user is within the bound in every state of a run if and only if no commit of the run pushes the
      user over. */
  lemma BoundedExactlyWhen(st: Settings, states: seq<Sys>, acts: seq<Action>, u: int)
    requires st.Valid() && IsRun(st, states, acts)
    ensures (forall i | 0 <= i < |states| :: Within(st, states[i].rows, u, states[i].clock))
       <==> (forall i | 0 <= i < |acts| :: !OverflowsFor(st, states[i], acts[i], u))
  {
    hide Within, OverflowsFor, Step;
    if forall i | 0 <= i < |states| :: Within(st, states[i].rows, u, states[i].clock) {
      forall i | 0 <= i < |acts| ensures !OverflowsFor(st, states[i], acts[i], u) {
        Reachable(st, states, acts, i);
        AllSessionsOk(st, states, acts, i);
        StepStaysWithinExactlyWhen(st, states[i], acts[i], states[i + 1], u, LateUsers(states, acts, i));
      }
    }
    if forall i | 0 <= i < |acts| :: !OverflowsFor(st, states[i], acts[i], u) {
      forall i | 0 <= i < |states| ensures Within(st, states[i].rows, u, states[i].clock) {
        WithinUpTo(st, states, acts, u, i);
      }
    }
  }

  lemma {:induction false} WithinUpTo(st: Settings, states: seq<Sys>, acts: seq<Action>, u: int, i: nat)
    requires st.Valid() && IsRun(st, states, acts) && i < |states|
    requires forall k | 0 <= k < i :: !OverflowsFor(st, states[k], acts[k], u)
    ensures Within(st, states[i].rows, u, states[i].clock)
  {
    hide OverflowsFor, Step, SysOk;
    if i > 0 {
      WithinUpTo(st, states, acts, u, i - 1);
      Reachable(st, states, acts, i - 1);
      AllSessionsOk(st, states, acts, i - 1);
      StepStaysWithinExactlyWhen(st, states[i - 1], acts[i - 1], states[i], u, LateUsers(states, acts, i - 1));
    } else {
      assert ActiveFamilies(states[0].rows, u, states[0].clock) == {};
    }
  }

  /** In particular a user is within the bound as long as none of that user's own rotations has inserted
      a successor after its predecessor had expired. */
  lemma SessionsAreBounded(st: Settings, states: seq<Sys>, acts: seq<Action>, i: nat, user: int)
    requires st.Valid() && IsRun(st, states, acts) && i < |states| && user !in LateUsers(states, acts, i)
    ensures |ActiveFamilies(states[i].rows, user, states[i].clock)| <= st.maxSessions
  {
    AllSessionsOk(st, states, acts, i);
    assert Within(st, states[i].rows, user, states[i].clock);
  }

  /** Whatever happened before, the commit of a login or of a change of password leaves its user within
      the bound. */
  lemma LoginRestoresTheBound(st: Settings, states: seq<Sys>, acts: seq<Action>, i: nat, p: Pid, user: int)
    requires st.Valid() && IsRun(st, states, acts) && i < |acts| && acts[i] == Commit(p) && p in states[i].txns
    requires states[i].txns[p].pc.Finished? && states[i].txns[p].pc.owner == Some(user)
    requires states[i].txns[p].pc.result.LoggedIn? || states[i].txns[p].pc.result.Changed?
    ensures |ActiveFamilies(states[i + 1].rows, user, states[i + 1].clock)| <= st.maxSessions
  {
    AllSessionsOk(st, states, acts, i);
    assert CapOk(st, states[i], states[i].txns[p], LateUsers(states, acts, i));
    assert Step(st, states[i], acts[i], states[i + 1]);
  }
}
