/** Every commit of RefreshConcurrent does to the stored rows, as they are at that moment, what the use
    case of RefreshService does in one go. Between the statements of a transaction others may take any
    number of steps, commit, and clean up. */
module RefreshRefines {
  import opened Wrappers
  import opened RefreshTable
  import opened RefreshService
  import opened RefreshConcurrent
  import opened RefreshSafety
  import opened RefreshRuns

  // ---------- What a transaction has read and drawn so far ----------

  // The job it began with, then the id, uuids, secret and clock readings of its statements, whether its
  // user was found active, and the families it listed together with the rows it listed them from.
  datatype Plan = Plan(
    job: Job,
    id: nat, draw: Draw, family: Family, issued: Time,
    active: bool, revoked: Time,
    listing: seq<Family>, listed: Time, seen: Table)

  function Advanced(s: Sys, a: Action, plan: Plan): Plan {
    match a
    case InsertNext(_, next, secret) => plan.(id := s.nextId, draw := Draw(next, secret), issued := s.clock)
    case OpenFamily(_, jti, secret, family) =>
      plan.(id := s.nextId, draw := Draw(jti, secret), family := family, issued := s.clock)
    case CheckUser(p) =>
      plan.(active := p in s.txns && s.txns[p].pc.Marked? && s.txns[p].pc.row.user in s.enabled, revoked := s.clock)
    case Reject(_) => plan.(revoked := s.clock)
    case ListFamilies(p, listing) =>
      plan.(listing := listing, listed := s.clock,
            seen := if p in s.txns then View(s.rows, s.txns[p].writes) else map[])
    case _ => plan
  }

  type Plans = map<Pid, Plan>

  ghost function NextPlans(s: Sys, a: Action, plans: Plans): Plans {
    match a
    case Begin(p, job) => plans[p := Plan(job, 0, Draw(0, 0), 0, 0, false, 0, [], 0, map[])]
    case Tick(_) => plans
    case SetUser(_, _) => plans
    case Cleanup(_) => plans
    case _ => if a.p in plans then plans[a.p := Advanced(s, a, plans[a.p])] else plans
  }

  /** The plans of the transactions after the first i steps of a run. */
  ghost function PlansAt(states: seq<Sys>, acts: seq<Action>, i: nat): Plans
    requires i <= |acts| <= |states|
  {
    if i == 0 then map[] else NextPlans(states[i - 1], acts[i - 1], PlansAt(states, acts, i - 1))
  }

  // ---------- The effect of a transaction on any table ----------

  // Rows added or replaced, then families revoked.
  datatype Effect = Effect(added: Table, families: set<Family>, reason: Reason, at: Time)

  function Apply(t: Table, e: Effect): Table { RevokeFamilies(t + e.added, e.families, e.reason, e.at) }

  /** The transaction's view of the rows is the effect on the committed ones. */
  ghost predicate EffectOk(s: Sys, x: Txn, e: Effect) {
    && View(s.rows, x.writes) == Apply(s.rows, e)
    && e.added.Keys <= x.writes.Keys
    && (forall f | f in e.families :: Owns(s, x, f))
  }

  function Successor(st: Settings, plan: Plan, row: Row): Row {
    NewRow(st, plan.id, plan.draw.jti, row.family, row.user, plan.draw.secret, plan.issued, row.absoluteAt)
  }

  function FirstRow(st: Settings, plan: Plan, user: int): Row {
    NewRow(st, plan.id, plan.draw.jti, plan.family, user, plan.draw.secret, plan.issued, plan.issued + st.absolute)
  }

  function Swapped(st: Settings, plan: Plan, row: Row, checked: Time): Table {
    map[plan.draw.jti := Successor(st, plan, row)][row.jti := MarkedRotated(row, plan.draw.jti, checked)]
  }

  /** The families that a login or a change of password revokes. */
  function Doomed(st: Settings, plan: Plan): seq<Family> {
    if plan.job.Login? then Overflow(st, plan.listing) else plan.listing
  }

  function LoopEffect(st: Settings, plan: Plan, user: int, done: seq<Family>): Effect {
    if plan.job.Login?
    then Effect(map[plan.draw.jti := FirstRow(st, plan, user)], ToSet(done), ConcurrencyLimit, plan.listed)
    else Effect(map[], ToSet(done), PasswordChanged, plan.listed)
  }

  function RefreshEffect(st: Settings, plan: Plan, row: Row, checked: Time): Effect {
    Effect(Swapped(st, plan, row, checked), if plan.active then {} else {row.family}, LoggedOut, plan.revoked)
  }

  function ChangeEffect(st: Settings, plan: Plan, user: int): Effect {
    Effect(map[plan.draw.jti := FirstRow(st, plan, user)], ToSet(plan.listing), PasswordChanged, plan.listed)
  }

  // ---------- What holds of a transaction at each point ----------

  /** The job's token is stored, as this row. */
  ghost predicate Presents(s: Sys, x: Txn, job: Job, row: Row) {
    && IsToken(job) && job.jti in s.rows && s.rows[job.jti] == row
    && row.secret == job.secret && row.jti == job.jti && Owner(x.pc) == Some(row.user)
  }

  ghost predicate Renews(s: Sys, x: Txn, plan: Plan, row: Row) {
    && plan.job.Refresh? && Presents(s, x, plan.job, row) && Renewable(row, plan.job.checked)
    && plan.draw.jti !in s.rows && plan.draw.jti != row.jti
  }

  /** The listing was taken from rows that still hold all the user's rows. */
  ghost predicate Listed(s: Sys, plan: Plan, user: int) {
    && IsListing(plan.seen, user, plan.listed, plan.listing)
    && (forall k | k in s.rows && s.rows[k].user == user :: k in plan.seen && plan.seen[k] == s.rows[k])
  }

  ghost predicate LoopOk(st: Settings, s: Sys, x: Txn, plan: Plan, user: int, queue: seq<Family>) {
    var all := Doomed(st, plan);
    && |queue| <= |all| && queue == all[|all| - |queue|..]
    && (LoginOf(plan.job, user) || ChangeOf(plan.job, user))
    && EffectOk(s, x, LoopEffect(st, plan, user, all[..|all| - |queue|]))
    && Listed(s, plan, user)
    && (plan.job.Login? ==> plan.draw.jti !in s.rows && FirstSeen(st, plan, user))
  }

  /** A login lists its own new family too. */
  ghost predicate FirstSeen(st: Settings, plan: Plan, user: int) {
    plan.draw.jti in plan.seen && plan.seen[plan.draw.jti] == FirstRow(st, plan, user)
  }

  ghost predicate FinishedOk(st: Settings, s: Sys, x: Txn, plan: Plan, o: Option<int>, r: Result) {
    match r
    case Invalid => true
    case Renewed(j) =>
      j in s.rows && plan.job.Refresh? && j == plan.job.jti && Renews(s, x, plan, s.rows[j]) && plan.active
      && EffectOk(s, x, RefreshEffect(st, plan, s.rows[j], plan.job.checked))
    case Denied(j, f) =>
      j in s.rows && plan.job.Refresh? && j == plan.job.jti && Renews(s, x, plan, s.rows[j]) && !plan.active
      && EffectOk(s, x, RefreshEffect(st, plan, s.rows[j], plan.job.checked))
    case Reused(j, f) =>
      && plan.job.Refresh? && j == plan.job.jti && j in s.rows && Presents(s, x, plan.job, s.rows[j])
          && IsReuse(s.rows[j]) && s.rows[j].family == f
      && EffectOk(s, x, Effect(map[], {f}, ReuseDetected, plan.job.checked))
    case Ended(j, f) =>
      && plan.job.Logout? && j == plan.job.jti && j in s.rows && Presents(s, x, plan.job, s.rows[j])
          && s.rows[j].family == f
      && EffectOk(s, x, Effect(map[], {f}, LoggedOut, plan.revoked))
    case LoggedIn => o.Some? && LoginOf(plan.job, o.value) && LoopOk(st, s, x, plan, o.value, [])
    case Changed(u, f, _) =>
      && ChangeOf(plan.job, u) && o == Some(u) && Listed(s, plan, u) && plan.draw.jti !in s.rows
          && plan.family == f
      && f !in plan.listing && EffectOk(s, x, ChangeEffect(st, plan, u))
  }

  ghost predicate SpecOk(st: Settings, s: Sys, x: Txn, plan: Plan) {
    match x.pc
    case Begun(job) => job == plan.job
    case Known(job, _) => job == plan.job
    case Holding(job, _) => job == plan.job && x.writes == map[]
    case Checked(job, row) => job == plan.job && Presents(s, x, job, row) && x.writes == map[]
    case Inserted(c, row, next) =>
      && Renews(s, x, plan, row) && c == plan.job.checked && next == plan.draw.jti
      && x.writes == map[next := Successor(st, plan, row)]
    case Marked(row) => Renews(s, x, plan, row) && x.writes == Swapped(st, plan, row, plan.job.checked)
    case Opened(job, u) =>
      && job == plan.job && LoginOf(plan.job, u) && plan.draw.jti !in s.rows
      && x.writes == map[plan.draw.jti := FirstRow(st, plan, u)]
    case Revoking(job, u, _, queue, at) => job == plan.job && at == plan.listed && LoopOk(st, s, x, plan, u, queue)
    case Finished(o, r) => FinishedOk(st, s, x, plan, o, r)
  }

  // ---------- What the others do leaves it so ----------

  lemma ApplyAt(t: Table, e: Effect, k: Jti)
    ensures k in Apply(t, e) <==> k in t || k in e.added
    ensures k in Apply(t, e) ==>
              Apply(t, e)[k] == var r := if k in e.added then e.added[k] else t[k];
                                if r.family in e.families && r.revokedAt.None? then Revoked(r, e.reason, e.at) else r
  {
  }

  lemma ViewAt(t: Table, w: Table, k: Jti)
    ensures k in View(t, w) <==> k in t || k in w
    ensures k in View(t, w) ==> View(t, w)[k] == if k in w then w[k] else t[k]
  {
  }

  /** The effect carries over to a table that agrees wherever the transaction or the effect looks. */
  lemma EffectCarriesOver(t: Table, t': Table, w: Table, e: Effect)
    requires View(t, w) == Apply(t, e) && e.added.Keys <= w.Keys
    requires forall k | k in t' && (k !in t || t[k] != t'[k]) :: k !in w && t'[k].family !in e.families
    requires forall k | k in w && k in t :: k in t'
    ensures View(t', w) == Apply(t', e)
  {
    forall k
      ensures k in View(t', w) <==> k in Apply(t', e)
      ensures k in View(t', w) ==> View(t', w)[k] == Apply(t', e)[k]
    {
      ViewAt(t, w, k);
      ViewAt(t', w, k);
      ApplyAt(t, e, k);
      ApplyAt(t', e, k);
      hide View, Apply, Revoked;
    }
    hide View, Apply;
  }

  /** s' differs from s by the writes `w` of another user's transaction. */
  lemma OthersCommitKeepsEffect(s: Sys, s': Sys, x: Txn, w: Table, u: int, e: Effect)
    requires EffectOk(s, x, e) && s'.rows == View(s.rows, w) && s'.origins == s.origins
    requires forall k | k in w :: w[k].family in s.origins && s.origins[w[k].family].user == u
    requires Owner(x.pc) != Some(u) && w.Keys !! x.writes.Keys
    ensures EffectOk(s', x, e)
  {
    assert forall k | k in w :: w[k].family !in e.families;
    forall k | k in s'.rows && (k !in s.rows || s.rows[k] != s'.rows[k]) ensures k in w { ViewAt(s.rows, w, k); }
    forall k | k in x.writes && k in s.rows ensures k in s'.rows { ViewAt(s.rows, w, k); }
    forall k | k in w ensures s'.rows[k] == w[k] { ViewAt(s.rows, w, k); }
    hide View, Apply;
    EffectCarriesOver(s.rows, s'.rows, x.writes, e);
  }

  lemma CleanupKeepsEffect(s: Sys, s': Sys, cutoff: Time, x: Txn, e: Effect)
    requires EffectOk(s, x, e) && Unaffected(s, x, cutoff) && s' == s.(rows := DeleteExpired(s.rows, cutoff))
    ensures EffectOk(s', x, e)
  {
    forall k | k in x.writes && k in s.rows ensures k in s'.rows { assert k in Pinned(x.pc) + x.writes.Keys; }
    hide View, Apply, Unaffected;
    EffectCarriesOver(s.rows, s'.rows, x.writes, e);
  }

  /** What a transaction relies on in the committed rows: its user's own, and what it has written or
      locked. */
  ghost predicate Spared(s: Sys, s': Sys, x: Txn) {
    && (Owner(x.pc).Some? ==>
          && (forall k | k in s'.rows && s'.rows[k].user == Owner(x.pc).value :: k in s.rows && s'.rows[k] == s.rows[k])
          && (forall k | k in x.writes && k !in s.rows :: k !in s'.rows)
          && (forall k | k in Pinned(x.pc) + x.writes.Keys && k in s.rows && s.rows[k].user == Owner(x.pc).value ::
                k in s'.rows && s'.rows[k] == s.rows[k]))
  }

  /** Whatever spares the transaction and keeps its effects keeps the rest. */
  lemma SparedKeepsSpec(st: Settings, s: Sys, s': Sys, x: Txn, plan: Plan)
    requires SpecOk(st, s, x, plan) && PcOk(s, x) && Spared(s, s', x)
    requires forall e | EffectOk(s, x, e) :: EffectOk(s', x, e)
    ensures SpecOk(st, s', x, plan)
  {
    hide EffectOk, IsListing, Renewable, IsReuse, Apply, View;
    match x.pc
    case Finished(o, r) => SparedKeepsFinished(st, s, s', x, plan, o, r);
    case Revoking(_, u, _, queue, _) => SparedKeepsLoop(st, s, s', x, plan, u, queue);
    case _ =>
  }

  lemma SparedKeepsLoop(st: Settings, s: Sys, s': Sys, x: Txn, plan: Plan, u: int, queue: seq<Family>)
    requires LoopOk(st, s, x, plan, u, queue) && Owner(x.pc) == Some(u) && Spared(s, s', x)
    requires forall e | EffectOk(s, x, e) :: EffectOk(s', x, e)
    ensures LoopOk(st, s', x, plan, u, queue)
  {
    hide IsListing, FirstRow, View, Apply, Doomed;
    var all := Doomed(st, plan);
    LoopAdds(st, s, x, plan, u, all[..|all| - |queue|]);
    hide EffectOk, LoopEffect;
  }

  lemma LoopAdds(st: Settings, s: Sys, x: Txn, plan: Plan, u: int, done: seq<Family>)
    requires EffectOk(s, x, LoopEffect(st, plan, u, done))
    ensures plan.job.Login? ==> plan.draw.jti in x.writes
  {
    assert plan.job.Login? ==> plan.draw.jti in LoopEffect(st, plan, u, done).added;
    hide View, Apply;
  }

  lemma SparedKeepsFinished(st: Settings, s: Sys, s': Sys, x: Txn, plan: Plan, o: Option<int>, r: Result)
    requires FinishedOk(st, s, x, plan, o, r) && x.pc == Finished(o, r) && ResultOk(s, x, r) && Spared(s, s', x)
    requires forall e | EffectOk(s, x, e) :: EffectOk(s', x, e)
    ensures FinishedOk(st, s', x, plan, o, r)
  {
    match r
    case Invalid =>
    case LoggedIn => SparedKeepsLoop(st, s, s', x, plan, o.value, []);
    case Changed(u, f, _) =>
      assert plan.draw.jti in ChangeEffect(st, plan, u).added;
      assert plan.draw.jti in x.writes;
      hide EffectOk, IsListing;
    case Renewed(j) => SparedKeepsRenewal(st, s, s', x, plan, j);
    case Denied(j, _) => SparedKeepsRenewal(st, s, s', x, plan, j);
    case Reused(j, _) =>
      assert j in Pinned(x.pc) + x.writes.Keys;
      hide EffectOk, IsReuse;
    case Ended(j, _) =>
      assert j in Pinned(x.pc) + x.writes.Keys;
      hide EffectOk;
  }

  lemma SparedKeepsRenewal(st: Settings, s: Sys, s': Sys, x: Txn, plan: Plan, j: Jti)
    requires plan.job.Refresh? && j == plan.job.jti && j in s.rows && Renews(s, x, plan, s.rows[j]) && Spared(s, s', x)
    requires EffectOk(s, x, RefreshEffect(st, plan, s.rows[j], plan.job.checked))
    requires forall e | EffectOk(s, x, e) :: EffectOk(s', x, e)
    ensures j in s'.rows && s'.rows[j] == s.rows[j] && Renews(s', x, plan, s'.rows[j])
    ensures EffectOk(s', x, RefreshEffect(st, plan, s'.rows[j], plan.job.checked))
  {
    hide View, Apply, Renewable;
    var e := RefreshEffect(st, plan, s.rows[j], plan.job.checked);
    assert plan.draw.jti in e.added && plan.job.jti in e.added;
    assert plan.job.jti in Pinned(x.pc) + x.writes.Keys && plan.draw.jti in x.writes;
    hide EffectOk, RefreshEffect;
  }

  lemma QuietKeepsSpec(st: Settings, s: Sys, s': Sys, x: Txn, plan: Plan)
    requires SpecOk(st, s, x, plan) && PcOk(s, x) && s'.rows == s.rows
    requires forall f | f in s.origins :: f in s'.origins && s'.origins[f] == s.origins[f]
    ensures SpecOk(st, s', x, plan)
  {
    forall e | EffectOk(s, x, e) ensures EffectOk(s', x, e) { hide View, Apply; }
    hide SpecOk, PcOk, EffectOk;
    SparedKeepsSpec(st, s, s', x, plan);
  }

  lemma IdleKeepsSpec(st: Settings, s: Sys, s': Sys, x: Txn, plan: Plan)
    requires SpecOk(st, s, x, plan) && PcOk(s, x) && Owner(x.pc).None?
    ensures SpecOk(st, s', x, plan)
  {
  }

  lemma CommitKeepsSpec(st: Settings, s: Sys, p: Pid, s': Sys, q: Pid, plan: Plan)
    requires SysOk(st, s) && StepCommit(s, p, s') && q in s.txns && q != p && SpecOk(st, s, s.txns[q], plan)
    ensures SpecOk(st, s', s.txns[q], plan)
  {
    hide Inv, SysOk, TableOk, TxnOk, SpecOk, PcOk, View;
    TheTxn(st, s, p);
    TheTxn(st, s, q);
    TxnParts(st, s, q, s.txns[q]);
    TxnOwnsWrites(st, s, p, s.txns[p]);
    TxnOwnsWrites(st, s, q, s.txns[q]);
    var x, y := s.txns[p], s.txns[q];
    if Owner(y.pc).None? {
      IdleKeepsSpec(st, s, s', y, plan);
    } else if Owner(x.pc).None? {
      NothingWritten(st, s, p);
      NoWrites(s.rows);
      QuietKeepsSpec(st, s, s', y, plan);
    } else {
      OtherBuckets(st, s, p, q, Owner(x.pc).value, Owner(y.pc).value);
      DisturbedKeepsSpec(st, s, s', x, y, Owner(x.pc).value, Owner(y.pc).value, plan);
    }
  }

  lemma NoWrites(t: Table)
    ensures View(t, map[]) == t
  {
  }

  lemma NothingWritten(st: Settings, s: Sys, p: Pid)
    requires p in s.txns && TxnOk(st, s, p, s.txns[p]) && Owner(s.txns[p].pc).None?
    ensures s.txns[p].writes == map[]
  {
    hide Inv, PcOk, WriteOk;
  }

  lemma OtherBuckets(st: Settings, s: Sys, p: Pid, q: Pid, u: int, v: int)
    requires p in s.txns && q in s.txns && p != q && TxnOk(st, s, p, s.txns[p]) && TxnOk(st, s, q, s.txns[q])
    requires Owner(s.txns[p].pc) == Some(u) && Owner(s.txns[q].pc) == Some(v)
    ensures Bucket(u) != Bucket(v)
  {
    hide Inv, PcOk, WriteOk;
  }

  lemma DisturbedKeepsSpec(st: Settings, s: Sys, s': Sys, x: Txn, y: Txn, u: int, v: int, plan: Plan)
    requires OwnWrites(s, x) && OwnWrites(s, y) && Owner(x.pc) == Some(u) && Owner(y.pc) == Some(v)
        && Bucket(u) != Bucket(v)
    requires s'.rows == View(s.rows, x.writes) && s'.origins == s.origins
    requires SpecOk(st, s, y, plan) && PcOk(s, y)
    ensures SpecOk(st, s', y, plan)
  {
    hide SpecOk, PcOk, EffectOk;
    CommitDisturbs(s, x, y, u);
    WritesAreOf(s, x, u);
    forall e | EffectOk(s, y, e) ensures EffectOk(s', y, e) { OthersCommitKeepsEffect(s, s', y, x.writes, u, e); }
    assert Spared(s, s', y);
    SparedKeepsSpec(st, s, s', y, plan);
  }

  lemma CleanupKeepsSpec(st: Settings, s: Sys, cutoff: Time, s': Sys, x: Txn, plan: Plan)
    requires SpecOk(st, s, x, plan) && PcOk(s, x) && Unaffected(s, x, cutoff)
        && s' == s.(rows := DeleteExpired(s.rows, cutoff))
    ensures SpecOk(st, s', x, plan)
  {
    assert Spared(s, s', x);
    hide SpecOk, PcOk, EffectOk, Unaffected, Spared;
    forall e | EffectOk(s, x, e) ensures EffectOk(s', x, e) { CleanupKeepsEffect(s, s', cutoff, x, e); }
    SparedKeepsSpec(st, s, s', x, plan);
  }

  // ---------- The transaction's own steps ----------

  /** Writes on their own are an effect. */
  lemma PlainEffect(s: Sys, x: Txn, reason: Reason, at: Time)
    ensures EffectOk(s, x, Effect(x.writes, {}, reason, at))
  {
    RevokeNone(s.rows + x.writes, reason, at);
    hide RevokeFamilies;
  }

  /** Revoking one more family extends the effect. */
  lemma RevokeExtends(s: Sys, x: Txn, e: Effect, f: Family, reason: Reason, at: Time, s': Sys, x': Txn)
    requires EffectOk(s, x, e) && (e.families == {} || (e.reason == reason && e.at == at))
    requires x'.writes == RevokeIn(s.rows, x.writes, f, reason, at) && s'.rows == s.rows && s'.origins == s.origins
    requires Owner(x'.pc) == Owner(x.pc) && Owns(s, x, f)
    ensures EffectOk(s', x', Effect(e.added, e.families + {f}, reason, at))
  {
    RevokeInView(s.rows, x.writes, f, reason, at);
    RevokeInGrows(s.rows, x.writes, f, reason, at);
    if e.families == {} {
      RevokeNone(s.rows + e.added, e.reason, e.at);
      assert e.families + {f} == {f};
    } else {
      RevokeOneMore(s.rows + e.added, e.families, f, reason, at);
    }
    hide RevokeIn, View, RevokeFamilies;
  }

  lemma RevokeInGrows(rows: Table, w: Table, f: Family, reason: Reason, now: Time)
    ensures w.Keys <= RevokeIn(rows, w, f, reason, now).Keys
  {
  }

  lemma BeginSpec(st: Settings, s: Sys, p: Pid, job: Job, s': Sys)
    requires Step(st, s, Begin(p, job), s')
    ensures p in s'.txns && SpecOk(st, s', s'.txns[p], NextPlans(s, Begin(p, job), map[])[p])
  {
  }

  lemma ReadUserSpec(st: Settings, s: Sys, p: Pid, s': Sys, plan: Plan)
    requires StepReadUser(s, p, s') && SpecOk(st, s, s.txns[p], plan)
    ensures p in s'.txns && SpecOk(st, s', s'.txns[p], plan)
  {
    AfterSetPc(s, p);
    hide SetPc;
  }

  lemma TakeLockSpec(st: Settings, s: Sys, p: Pid, s': Sys, plan: Plan)
    requires StepTakeLock(s, p, s') && SpecOk(st, s, s.txns[p], plan)
    ensures p in s'.txns && SpecOk(st, s', s'.txns[p], plan)
  {
    AfterSetPc(s, p);
    hide SetPc;
  }

  lemma ReadRowSpec(st: Settings, s: Sys, p: Pid, s': Sys, plan: Plan)
    requires StepReadRow(s, p, s') && SpecOk(st, s, s.txns[p], plan)
    requires forall j | j in s.rows :: s.rows[j].jti == j
    ensures p in s'.txns && SpecOk(st, s', s'.txns[p], plan)
  {
    AfterSetPc(s, p);
    hide SetPc;
  }

  lemma RejectSpec(st: Settings, s: Sys, p: Pid, s': Sys, plan: Plan)
    requires StepReject(s, p, s') && SpecOk(st, s, s.txns[p], plan) && p in s'.txns && PcOk(s', s'.txns[p])
    ensures SpecOk(st, s', s'.txns[p], Advanced(s, Reject(p), plan))
  {
    RejectShape(s, p, s');
    var x, x' := s.txns[p], s'.txns[p];
    assert x.pc.job == plan.job && Presents(s, x, x.pc.job, x.pc.row) && x.writes == map[];
    assert !x'.pc.result.Invalid? ==> Owns(s', x', x.pc.row.family);
    hide StepReject, SpecOk, PcOk;
    RejectedOk(st, s, x, s', x', plan, Advanced(s, Reject(p), plan));
    SpecOfFinished(st, s', x', Advanced(s, Reject(p), plan));
  }

  lemma SpecOfFinished(st: Settings, s: Sys, x: Txn, plan: Plan)
    requires x.pc.Finished? && FinishedOk(st, s, x, plan, x.pc.owner, x.pc.result)
    ensures SpecOk(st, s, x, plan)
  {
    hide FinishedOk;
  }

  lemma RejectedOk(st: Settings, s: Sys, x: Txn, s': Sys, x': Txn, plan: Plan, plan': Plan)
    requires x.pc.Checked? && x.pc.job == plan.job && Presents(s, x, x.pc.job, x.pc.row) && x.writes == map[]
    requires s'.rows == s.rows && s'.origins == s.origins && plan' == plan.(revoked := s.clock)
    requires var row := x.pc.row;
      x' == (if !x.pc.job.Refresh? then
               Txn(Finished(Some(row.user), Ended(row.jti, row.family)),
                   RevokeIn(s.rows, x.writes, row.family, LoggedOut, s.clock))
             else if IsReuse(row) then
               Txn(Finished(Some(row.user), Reused(row.jti, row.family)),
                   RevokeIn(s.rows, x.writes, row.family, ReuseDetected, x.pc.job.checked))
             else Txn(Finished(Some(row.user), Invalid), x.writes))
    requires !x'.pc.result.Invalid? ==> Owns(s', x', x.pc.row.family)
    ensures FinishedOk(st, s', x', plan', x'.pc.owner, x'.pc.result)
  {
    hide RevokeIn, EffectOk, IsReuse;
    if !x'.pc.result.Invalid? {
      var reason := if x.pc.job.Refresh? then ReuseDetected else LoggedOut;
      var at := if x.pc.job.Refresh? then x.pc.job.checked else s.clock;
      PlainEffect(s, x, reason, at);
      RevokeExtends(s, x, Effect(x.writes, {}, reason, at), x.pc.row.family, reason, at, s', x');
      assert {} + {x.pc.row.family} == {x.pc.row.family};
    }
  }

  lemma InsertNextSpec(st: Settings, s: Sys, p: Pid, next: Jti, secret: nat, s': Sys, plan: Plan)
    requires StepInsertNext(st, s, p, next, secret, s') && SpecOk(st, s, s.txns[p], plan) && next !in s.rows
    ensures p in s'.txns && SpecOk(st, s', s'.txns[p], Advanced(s, InsertNext(p, next, secret), plan))
  {
    hide NewRow, Renewable;
  }

  lemma MarkOldSpec(st: Settings, s: Sys, p: Pid, s': Sys, plan: Plan)
    requires StepMarkOld(s, p, s') && SpecOk(st, s, s.txns[p], plan)
    ensures p in s'.txns && SpecOk(st, s', s'.txns[p], plan)
  {
    AfterSetPc(s, p);
    hide SetPc, NewRow, MarkedRotated, Renewable;
  }

  lemma CheckUserSpec(st: Settings, s: Sys, p: Pid, s': Sys, plan: Plan)
    requires StepCheckUser(s, p, s') && SpecOk(st, s, s.txns[p], plan) && p in s'.txns && PcOk(s', s'.txns[p])
    ensures SpecOk(st, s', s'.txns[p], Advanced(s, CheckUser(p), plan))
  {
    CheckShape(s, p, s');
    var x, x' := s.txns[p], s'.txns[p];
    CheckStarts(st, s, p, s', plan);
    hide StepCheckUser, SpecOk, PcOk, Swapped, Renews, Owns;
    SwappedIsPlain(st, s, CheckUser(p), plan, x.pc.row);
    DeniedOwns(s', x');
    CheckedOk(st, s, x, s', x', plan, Advanced(s, CheckUser(p), plan), x.pc.row);
    SpecOfFinished(st, s', x', Advanced(s, CheckUser(p), plan));
  }

  lemma CheckStarts(st: Settings, s: Sys, p: Pid, s': Sys, plan: Plan)
    requires StepCheckUser(s, p, s') && SpecOk(st, s, s.txns[p], plan)
    ensures var x := s.txns[p];
      && x.pc.Marked? && plan.job.Refresh? && Renews(s, x, plan, x.pc.row)
      && x.writes == Swapped(st, plan, x.pc.row, plan.job.checked)
  {
    hide Swapped, Renewable, SetPc, RevokeIn;
  }

  lemma DeniedOwns(s: Sys, x: Txn)
    requires PcOk(s, x) && x.pc.Finished?
    ensures x.pc.result.Denied? ==> Owns(s, x, x.pc.result.family)
  {
    hide Owns;
  }

  lemma CheckedOk(st: Settings, s: Sys, x: Txn, s': Sys, x': Txn, plan: Plan, plan': Plan, row: Row)
    requires x.pc == Marked(row) && Renews(s, x, plan, row) && s'.rows == s.rows && s'.origins == s.origins
    requires plan' == plan.(active := row.user in s.enabled, revoked := s.clock)
    requires x.writes == Swapped(st, plan', row, plan.job.checked)
    requires x' == (if row.user in s.enabled then Txn(Finished(Some(row.user), Result.Renewed(row.jti)), x.writes)
                    else Txn(Finished(Some(row.user), Denied(row.jti, row.family)),
                             RevokeIn(s.rows, x.writes, row.family, LoggedOut, s.clock)))
    requires x'.pc.result.Denied? ==> Owns(s', x', row.family)
    ensures FinishedOk(st, s', x', plan', x'.pc.owner, x'.pc.result)
  {
    hide RevokeIn, EffectOk, Swapped, Renewable;
    var e := Effect(x.writes, {}, LoggedOut, s.clock);
    PlainEffect(s, x, LoggedOut, s.clock);
    if row.user in s.enabled {
      SameEffect(s, x, s', x', e);
    } else {
      RevokeExtends(s, x, e, row.family, LoggedOut, s.clock, s', x');
      assert {} + {row.family} == {row.family};
    }
  }

  lemma SwappedIsPlain(st: Settings, s: Sys, a: Action, plan: Plan, row: Row)
    requires a.CheckUser? && plan.job.Refresh?
    ensures Swapped(st, Advanced(s, a, plan), row, plan.job.checked) == Swapped(st, plan, row, plan.job.checked)
  {
  }

  lemma SameEffect(s: Sys, x: Txn, s': Sys, x': Txn, e: Effect)
    requires EffectOk(s, x, e) && s'.rows == s.rows && s'.origins == s.origins && x'.writes == x.writes
    requires Owner(x'.pc) == Owner(x.pc)
    ensures EffectOk(s', x', e)
  {
    hide View, Apply;
  }

  lemma LoginOpensSpec(st: Settings, s: Sys, p: Pid, jti: Jti, secret: nat, family: Family, s': Sys, plan: Plan)
    requires StepOpenFamily(st, s, p, jti, secret, family, s') && SpecOk(st, s, s.txns[p], plan)
        && s.txns[p].pc.Holding?
    requires PcOk(s, s.txns[p]) && jti !in s.rows
    ensures p in s'.txns && SpecOk(st, s', s'.txns[p], Advanced(s, OpenFamily(p, jti, secret, family), plan))
  {
    hide NewRow;
  }

  /** The new family of a change of password is none of the revoked ones. */
  lemma ChangeOpensSpec(st: Settings, s: Sys, p: Pid, jti: Jti, secret: nat, family: Family, s': Sys, plan: Plan)
    requires StepOpenFamily(st, s, p, jti, secret, family, s') && SpecOk(st, s, s.txns[p], plan)
        && s.txns[p].pc.Revoking?
    requires jti !in s.rows && p in s'.txns && PcOk(s', s'.txns[p])
    ensures SpecOk(st, s', s'.txns[p], Advanced(s, OpenFamily(p, jti, secret, family), plan))
  {
    OpenShape(st, s, p, jti, secret, family, s', plan);
    var x, x', plan' := s.txns[p], s'.txns[p], Advanced(s, OpenFamily(p, jti, secret, family), plan);
    assert plan.listing[..|plan.listing|] == plan.listing;
    assert x.pc.job == plan.job && LoopOk(st, s, x, plan, x.pc.user, []);
    hide StepOpenFamily, SpecOk, PcOk, IsListing, EffectOk, FirstRow;
    ChangeOpenedOk(st, s, x, s', x', plan, plan', x.pc.user, family, jti);
    SpecOfFinished(st, s', x', plan');
  }

  lemma OpenShape(st: Settings, s: Sys, p: Pid, jti: Jti, secret: nat, family: Family, s': Sys, plan: Plan)
    requires StepOpenFamily(st, s, p, jti, secret, family, s') && s.txns[p].pc.Revoking?
    ensures var x, plan' := s.txns[p], Advanced(s, OpenFamily(p, jti, secret, family), plan);
      && x.pc.job.ChangePassword? && x.pc.queue == [] && family !in s.origins
      && p in s'.txns && s'.rows == s.rows && s'.origins == s.origins[family := Origin(x.pc.user, s.clock)]
      && s'.txns[p] == Txn(Finished(Some(x.pc.user), Changed(x.pc.user, family, x.pc.listedAt)),
                           x.writes[jti := FirstRow(st, plan', x.pc.user)])
  {
    hide NewRow;
  }

  lemma ChangeOpenedOk(st: Settings, s: Sys, x: Txn, s': Sys, x': Txn, plan: Plan, plan': Plan, u: int,
      family: Family, jti: Jti)
    requires x.pc.Revoking? && x.pc.user == u && ChangeOf(plan.job, u) && LoopOk(st, s, x, plan, u, [])
    requires s'.rows == s.rows && s'.origins == s.origins[family := Origin(u, s.clock)] && family !in s.origins
        && jti !in s.rows
    requires plan' == plan.(id := plan'.id, draw := plan'.draw, family := family, issued := plan'.issued)
        && plan'.draw.jti == jti
    requires x'.writes == x.writes[jti := FirstRow(st, plan', u)] && x'.pc.Finished? && x'.pc.owner == Some(u)
    requires x'.pc.result.Changed? && x'.pc.result.user == u && x'.pc.result.family == family
    ensures FinishedOk(st, s', x', plan', x'.pc.owner, x'.pc.result)
  {
    var e := Effect(map[], ToSet(plan.listing), PasswordChanged, plan.listed);
    hide LoopOk, Listed, EffectOk, FinishedOk;
    AllRevoked(st, s, x, plan, u);
    StillListed(s, s', plan, plan', u);
    Revokes(s, x, e);
    FirstOf(st, plan', u);
    assert forall f | f in plan.listing :: f in e.families;
    hide FirstRow, ToSet;
    NewFamilyExtends(s, x, e, jti, FirstRow(st, plan', u), s', x');
    ChangedIsOk(st, s', x', plan', u);
  }

  lemma ChangedIsOk(st: Settings, s: Sys, x: Txn, plan: Plan, u: int)
    requires ChangeOf(plan.job, u) && Listed(s, plan, u) && plan.draw.jti !in s.rows
        && plan.family !in plan.listing
    requires EffectOk(s, x, ChangeEffect(st, plan, u)) && x.pc.Finished? && x.pc.owner == Some(u)
    requires x.pc.result.Changed? && x.pc.result.user == u && x.pc.result.family == plan.family
    ensures FinishedOk(st, s, x, plan, x.pc.owner, x.pc.result)
  {
    hide Listed, EffectOk, ChangeEffect;
  }

  lemma StillListed(s: Sys, s': Sys, plan: Plan, plan': Plan, u: int)
    requires Listed(s, plan, u) && s'.rows == s.rows
    requires plan'.seen == plan.seen && plan'.listed == plan.listed && plan'.listing == plan.listing
    ensures Listed(s', plan', u)
  {
    hide IsListing;
  }

  lemma AllRevoked(st: Settings, s: Sys, x: Txn, plan: Plan, u: int)
    requires ChangeOf(plan.job, u) && LoopOk(st, s, x, plan, u, [])
    ensures EffectOk(s, x, Effect(map[], ToSet(plan.listing), PasswordChanged, plan.listed)) && Listed(s, plan, u)
  {
    assert plan.listing[..|plan.listing| - 0] == plan.listing;
    hide IsListing, EffectOk, ToSet, Listed;
  }

  lemma FirstOf(st: Settings, plan: Plan, u: int)
    ensures FirstRow(st, plan, u)
         == NewRow(st, plan.id, plan.draw.jti, plan.family, u, plan.draw.secret, plan.issued, plan.issued + st.absolute)
    ensures FirstRow(st, plan, u).family == plan.family
  {
  }

  lemma Revokes(s: Sys, x: Txn, e: Effect)
    requires EffectOk(s, x, e)
    ensures forall f | f in e.families :: f in s.origins
  {
    hide View, Apply;
  }

  lemma NewFamilyExtends(s: Sys, x: Txn, e: Effect, jti: Jti, n: Row, s': Sys, x': Txn)
    requires EffectOk(s, x, e) && e.added == map[] && jti !in s.rows && n.family !in e.families
    requires x'.writes == x.writes[jti := n] && s'.rows == s.rows && Owner(x'.pc) == Owner(x.pc)
    requires forall f | f in s.origins :: f in s'.origins && s'.origins[f] == s.origins[f]
    ensures EffectOk(s', x', e.(added := map[jti := n]))
  {
    assert s.rows + map[] == s.rows;
    OneMoreWrite(s.rows, x.writes, jti, n);
    AddAfterRevoking(s.rows, e.families, e.reason, e.at, jti, n);
    hide View, RevokeFamilies;
  }

  lemma OneMoreWrite(rows: Table, writes: Table, jti: Jti, n: Row)
    ensures View(rows, writes[jti := n]) == View(rows, writes)[jti := n]
  {
  }

  lemma AddAfterRevoking(t: Table, fs: set<Family>, reason: Reason, at: Time, jti: Jti, n: Row)
    requires jti !in t && n.family !in fs
    ensures RevokeFamilies(t + map[jti := n], fs, reason, at) == RevokeFamilies(t, fs, reason, at)[jti := n]
  {
  }

  lemma ListShape(st: Settings, s: Sys, p: Pid, listing: seq<Family>, s': Sys)
    requires StepListFamilies(st, s, p, listing, s')
    ensures var x := s.txns[p];
      && (x.pc.Opened? || (x.pc.Holding? && x.pc.job.ChangePassword?))
      && IsListing(View(s.rows, x.writes), x.pc.user, s.clock, listing)
      && p in s'.txns && s'.rows == s.rows && s'.origins == s.origins && s'.txns[p].writes == x.writes
      && s'.txns[p].pc == (
           if x.pc.Opened? then
             Revoking(x.pc.job, x.pc.user, Kept(st, listing), Overflow(st, listing), s.clock)
           else Revoking(x.pc.job, x.pc.user, {}, listing, s.clock))
  {
    AfterSetPc(s, p);
    hide SetPc, IsListing, View, Kept, Overflow;
  }

  lemma ListFamiliesSpec(st: Settings, s: Sys, p: Pid, listing: seq<Family>, s': Sys, plan: Plan)
    requires StepListFamilies(st, s, p, listing, s') && SpecOk(st, s, s.txns[p], plan)
    requires PcOk(s, s.txns[p])
    ensures p in s'.txns && SpecOk(st, s', s'.txns[p], Advanced(s, ListFamilies(p, listing), plan))
  {
    ListShape(st, s, p, listing, s');
    var x, x', plan' := s.txns[p], s'.txns[p], Advanced(s, ListFamilies(p, listing), plan);
    assert if x.pc.Opened? then
             x.pc.job == plan.job && LoginOf(plan.job, x.pc.user) && plan.draw.jti !in s.rows
             && x.writes == map[plan.draw.jti := FirstRow(st, plan, x.pc.user)]
           else ChangeOf(plan.job, x.pc.user) && x.pc.job == plan.job && x.writes == map[];
    hide StepListFamilies, PcOk, IsListing, View, FirstRow, EffectOk, Overflow, Kept;
    ListedOk(st, s, x, s', x', plan, plan', x.pc.user);
  }

  lemma ListedOk(st: Settings, s: Sys, x: Txn, s': Sys, x': Txn, plan: Plan, plan': Plan, u: int)
    requires plan' == plan.(listing := plan'.listing, listed := s.clock, seen := View(s.rows, x.writes))
    requires IsListing(plan'.seen, u, s.clock, plan'.listing) && x.writes == x'.writes
    requires s'.rows == s.rows && s'.origins == s.origins
    requires if plan.job.Login? then LoginOf(plan.job, u) && plan.draw.jti !in s.rows
                                     && x.writes == map[plan.draw.jti := FirstRow(st, plan, u)]
             else ChangeOf(plan.job, u) && x.writes == map[]
    requires Owner(x.pc) == Owner(x'.pc)
    ensures LoopOk(st, s', x', plan', u, Doomed(st, plan'))
  {
    var all := Doomed(st, plan');
    assert all[..|all| - |all|] == [] && all == all[0..];
    hide IsListing, View, FirstRow, EffectOk, Overflow, Doomed;
    assert ToSet<Family>([]) == {};
    SameFirst(st, plan, plan', u);
    var e := LoopEffect(st, plan', u, []);
    assert e == Effect(x.writes, {}, e.reason, e.at);
    PlainEffect(s, x, e.reason, e.at);
    SameEffect(s, x, s', x', e);
    ViewKeepsRows(s, x, u);
  }

  lemma SameFirst(st: Settings, plan: Plan, plan': Plan, u: int)
    requires plan'.id == plan.id && plan'.draw == plan.draw && plan'.family == plan.family
        && plan'.issued == plan.issued
    ensures FirstRow(st, plan', u) == FirstRow(st, plan, u)
  {
  }

  /** Before it revokes anything, a transaction sees its user's rows as they are, and its own. */
  lemma ViewKeepsRows(s: Sys, x: Txn, u: int)
    requires x.writes.Keys !! s.rows.Keys
    ensures forall k | k in s.rows && s.rows[k].user == u ::
              k in View(s.rows, x.writes) && View(s.rows, x.writes)[k] == s.rows[k]
    ensures forall k | k in x.writes :: k in View(s.rows, x.writes) && View(s.rows, x.writes)[k] == x.writes[k]
  {
  }

  lemma RevokeNextSpec(st: Settings, s: Sys, p: Pid, s': Sys, plan: Plan)
    requires StepRevokeNext(s, p, s') && SpecOk(st, s, s.txns[p], plan) && PcOk(s, s.txns[p])
    ensures p in s'.txns && SpecOk(st, s', s'.txns[p], plan)
  {
    AfterSetPc(s, p);
    var x := s.txns[p];
    hide SetPc, RevokeIn, IsListing;
    if x.pc.queue != [] { RevokeHeadSpec(st, s, p, s', plan); }
  }

  lemma RevokeHeadSpec(st: Settings, s: Sys, p: Pid, s': Sys, plan: Plan)
    requires StepRevokeNext(s, p, s') && SpecOk(st, s, s.txns[p], plan) && PcOk(s, s.txns[p])
        && s.txns[p].pc.queue != []
    ensures p in s'.txns && SpecOk(st, s', s'.txns[p], plan)
  {
    RevokeHeadShape(s, p, s');
    var x, x' := s.txns[p], s'.txns[p];
    assert x.pc.queue[0] in x.pc.queue && Owns(s, x, x.pc.queue[0]);
    hide StepRevokeNext, PcOk, LoopOk, RevokeIn;
    RevokeHeadOk(st, s, x, s', x', plan, x.pc.user, x.pc.queue);
  }

  lemma RevokeHeadShape(s: Sys, p: Pid, s': Sys)
    requires StepRevokeNext(s, p, s') && s.txns[p].pc.queue != []
    ensures var x := s.txns[p];
      && p in s'.txns && s'.rows == s.rows && s'.origins == s.origins
      && s'.txns[p] == Txn(x.pc.(queue := x.pc.queue[1..]),
                           RevokeIn(s.rows, x.writes, x.pc.queue[0],
                                    if x.pc.job.Login? then ConcurrencyLimit else PasswordChanged, x.pc.listedAt))
  {
    AfterSetPc(s, p);
    hide SetPc, RevokeIn;
  }

  lemma RevokeHeadOk(st: Settings, s: Sys, x: Txn, s': Sys, x': Txn, plan: Plan, u: int, queue: seq<Family>)
    requires LoopOk(st, s, x, plan, u, queue) && queue != [] && Owns(s, x, queue[0])
    requires s'.rows == s.rows && s'.origins == s.origins && Owner(x'.pc) == Owner(x.pc)
    requires x'.writes == RevokeIn(s.rows, x.writes, queue[0],
                                   if plan.job.Login? then ConcurrencyLimit else PasswordChanged, plan.listed)
    ensures LoopOk(st, s', x', plan, u, queue[1..])
  {
    hide RevokeIn, Listed, Doomed, ToSet, FirstRow, FirstSeen, EffectOk, LoopEffect;
    var all, rest := Doomed(st, plan), queue[1..];
    OneMoreDone(all, queue);
    var done := all[..|all| - |queue|];
    LoopEffectGrows(st, plan, u, done, all[..|all| - |rest|], queue[0]);
    StillListed(s, s', plan, plan, u);
    var e := LoopEffect(st, plan, u, done);
    RevokeExtends(s, x, e, queue[0], e.reason, e.at, s', x');
  }

  lemma OneMoreDone(all: seq<Family>, queue: seq<Family>)
    requires queue != [] && |queue| <= |all| && queue == all[|all| - |queue|..]
    ensures var rest := queue[1..];
      && rest == all[|all| - |rest|..]
      && ToSet(all[..|all| - |rest|]) == ToSet(all[..|all| - |queue|]) + {queue[0]}
  {
    var n := |all| - |queue|;
    assert all[..n + 1] == all[..n] + [queue[0]];
  }

  lemma LoopEffectGrows(st: Settings, plan: Plan, u: int, done: seq<Family>, more: seq<Family>, f: Family)
    requires ToSet(more) == ToSet(done) + {f}
    ensures var e := LoopEffect(st, plan, u, done);
      && LoopEffect(st, plan, u, more) == Effect(e.added, e.families + {f}, e.reason, e.at)
      && e.reason == (if plan.job.Login? then ConcurrencyLimit else PasswordChanged) && e.at == plan.listed
  {
    hide FirstRow, ToSet;
  }

  // ---------- Every step ----------

  ghost predicate AllSpecOk(st: Settings, s: Sys, plans: Plans) {
    forall p | p in s.txns :: p in plans && SpecOk(st, s, s.txns[p], plans[p])
  }

  lemma OpenFamilySpec(st: Settings, s: Sys, p: Pid, jti: Jti, secret: nat, family: Family, s': Sys, plan: Plan)
    requires StepOpenFamily(st, s, p, jti, secret, family, s') && SpecOk(st, s, s.txns[p], plan)
    requires SysOk(st, s) && SysOk(st, s')
    ensures p in s'.txns && SpecOk(st, s', s'.txns[p], Advanced(s, OpenFamily(p, jti, secret, family), plan))
  {
    TxnAndRows(st, s, p);
    InTheSystem(st, s, OpenFamily(p, jti, secret, family), s', p);
    TxnAndRows(st, s', p);
    assert jti !in s.rows;
    assert s.txns[p].pc.Holding? || s.txns[p].pc.Revoking?;
    hide SysOk, SpecOk, StepOpenFamily, PcOk;
    if s.txns[p].pc.Holding? {
      LoginOpensSpec(st, s, p, jti, secret, family, s', plan);
    } else {
      ChangeOpensSpec(st, s, p, jti, secret, family, s', plan);
    }
  }

  lemma TxnAndRows(st: Settings, s: Sys, p: Pid)
    requires SysOk(st, s) && p in s.txns
    ensures PcOk(s, s.txns[p])
    ensures forall j | j in s.rows :: s.rows[j].jti == j && j in s.issued
  {
    hide Inv, SysOk, PcOk, WriteOk;
    TheTxn(st, s, p);
    forall j | j in s.rows ensures s.rows[j].jti == j && j in s.issued { StoredUser(st, s, j); }
  }

  lemma InTheSystem(st: Settings, s: Sys, a: Action, s': Sys, p: Pid)
    requires Step(st, s, a, s') && StepOf(a, p)
    ensures p in s'.txns
  {
    StepMoves(st, s, a, s', p);
  }

  /** The step of transaction p leaves it as its advanced plan says. */
  lemma OwnStepKeepsSpec(st: Settings, s: Sys, a: Action, s': Sys, p: Pid, plans: Plans)
    requires SysOk(st, s) && SysOk(st, s') && AllSpecOk(st, s, plans) && Step(st, s, a, s') && StepOf(a, p)
    ensures p in s'.txns && p in NextPlans(s, a, plans) && SpecOk(st, s', s'.txns[p], NextPlans(s, a, plans)[p])
  {
    hide SysOk, SpecOk, PcOk, StepReadUser, StepTakeLock, StepReadRow, StepReject, StepInsertNext, StepMarkOld,
         StepCheckUser, StepOpenFamily, StepListFamilies, StepRevokeNext;
    InTheSystem(st, s, a, s', p);
    TxnAndRows(st, s', p);
    if a.Begin? {
      BeginSpec(st, s, p, a.job, s');
    } else {
      Mover(st, s, a, s', p);
      TxnAndRows(st, s, p);
      var plan := plans[p];
      match a {
        case ReadUser(_) => ReadUserSpec(st, s, p, s', plan);
        case TakeLock(_) => TakeLockSpec(st, s, p, s', plan);
        case ReadRow(_) => ReadRowSpec(st, s, p, s', plan);
        case Reject(_) => RejectSpec(st, s, p, s', plan);
        case InsertNext(_, next, secret) =>
          Undrawn(st, s, p, next, secret, s');
          InsertNextSpec(st, s, p, next, secret, s', plan);
        case MarkOld(_) => MarkOldSpec(st, s, p, s', plan);
        case CheckUser(_) => CheckUserSpec(st, s, p, s', plan);
        case OpenFamily(_, jti, secret, family) => OpenFamilySpec(st, s, p, jti, secret, family, s', plan);
        case ListFamilies(_, listing) => ListFamiliesSpec(st, s, p, listing, s', plan);
        case RevokeNext(_) => RevokeNextSpec(st, s, p, s', plan);
      }
    }
  }

  lemma Mover(st: Settings, s: Sys, a: Action, s': Sys, p: Pid)
    requires Step(st, s, a, s') && StepOf(a, p) && !a.Begin?
    ensures p in s.txns
  {
    hide SetPc, Renewable, RevokeIn, IsListing;
  }

  lemma Undrawn(st: Settings, s: Sys, p: Pid, next: Jti, secret: nat, s': Sys)
    requires StepInsertNext(st, s, p, next, secret, s')
    ensures next !in s.issued
  {
  }

  lemma StepKeepsSpec(st: Settings, s: Sys, a: Action, s': Sys, plans: Plans)
    requires SysOk(st, s) && SysOk(st, s') && AllSpecOk(st, s, plans) && Step(st, s, a, s')
    ensures AllSpecOk(st, s', NextPlans(s, a, plans))
  {
    hide SysOk, SpecOk, PcOk, StepReadUser, StepTakeLock, StepReadRow, StepReject, StepInsertNext, StepMarkOld,
         StepCheckUser, StepOpenFamily, StepListFamilies, StepRevokeNext, Unaffected, View;
    forall q | q in s'.txns
      ensures q in NextPlans(s, a, plans) && SpecOk(st, s', s'.txns[q], NextPlans(s, a, plans)[q])
    {
      if q in s.txns { TxnAndRows(st, s, q); }
      match a
      case Commit(p) => CommitKeepsSpec(st, s, p, s', q, plans[q]);
      case Cleanup(cutoff) => CleanupKeepsSpec(st, s, cutoff, s', s.txns[q], plans[q]);
      case Tick(_) => QuietKeepsSpec(st, s, s', s.txns[q], plans[q]);
      case SetUser(_, _) => QuietKeepsSpec(st, s, s', s.txns[q], plans[q]);
      case Abort(_) => QuietKeepsSpec(st, s, s', s.txns[q], plans[q]);
      case _ =>
        StepMoves(st, s, a, s', a.p);
        if q == a.p {
          OwnStepKeepsSpec(st, s, a, s', q, plans);
        } else {
          QuietKeepsSpec(st, s, s', s.txns[q], plans[q]);
        }
    }
  }

  lemma {:induction false} AllRunSpec(st: Settings, states: seq<Sys>, acts: seq<Action>, i: nat)
    requires IsRun(st, states, acts) && i < |states|
    ensures AllSpecOk(st, states[i], PlansAt(states, acts, i))
  {
    hide Step, SysOk, SpecOk;
    if i > 0 {
      AllRunSpec(st, states, acts, i - 1);
      Reachable(st, states, acts, i - 1);
      Reachable(st, states, acts, i);
      StepKeepsSpec(st, states[i - 1], acts[i - 1], states[i], PlansAt(states, acts, i - 1));
    }
  }

  // ---------- What a commit does ----------

  /** The listing is of these rows, up to rows of the user that a cleanup has removed since. */
  ghost predicate ListingOf(t: Table, user: int, plan: Plan) {
    && IsListing(plan.seen, user, plan.listed, plan.listing)
    && (forall k | k in t && t[k].user == user :: k in plan.seen && plan.seen[k] == t[k])
    && ((forall k | k in plan.seen && plan.seen[k].user == user :: k in t && t[k] == plan.seen[k]) ==>
          IsListing(t, user, plan.listed, plan.listing))
  }

  /** From t to t' as the use case of the job, with the readings and draws of the plan. */
  ghost predicate ActsAs(st: Settings, t: Table, t': Table, plan: Plan, o: Option<int>, r: Result) {
    match r
    case Invalid => t' == t
    case Renewed(_) => plan.active && ActsAsRefresh(st, t, t', plan)
    case Denied(_, _) => !plan.active && ActsAsRefresh(st, t, t', plan)
    case Reused(_, _) =>
      && plan.job.Refresh?
      && forall users: map<int, User>, id: nat, issued: Time, revoked: Time, draw: Draw | draw.jti !in t ::
           t' == RowsAfterRefresh(st, t, users, id, Token(plan.job.jti, plan.job.secret), plan.job.checked,
                                  issued, revoked, draw)
    case Ended(_, _) => plan.job.Logout? && t' == RowsAfterLogout(t, Token(plan.job.jti, plan.job.secret), plan.revoked)
    case LoggedIn =>
      o.Some? && LoginOf(plan.job, o.value) && plan.draw.jti !in t &&
      var t1 := RowsAfterIssue(st, t, plan.id, o.value, plan.family, plan.draw, plan.issued);
      && ListingOf(t1, o.value, plan)
      && t' == RevokeFamilies(t1, ToSet(Overflow(st, plan.listing)), ConcurrencyLimit, plan.listed)
    case Changed(u, f, _) =>
      ChangeOf(plan.job, u) && plan.draw.jti !in t && plan.family == f && ListingOf(t, u, plan)
      && t' == RowsAfterIssue(st, RevokeFamilies(t, ToSet(plan.listing), PasswordChanged, plan.listed),
                              plan.id, u, f, plan.draw, plan.issued)
  }

  ghost predicate ActsAsRefresh(st: Settings, t: Table, t': Table, plan: Plan) {
    && plan.job.Refresh? && plan.draw.jti !in t
    && Presented(t, Token(plan.job.jti, plan.job.secret)) && Renewable(t[plan.job.jti], plan.job.checked)
    && forall users: map<int, User> | IsActive(users, t[plan.job.jti].user) == plan.active ::
         t' == RowsAfterRefresh(st, t, users, plan.id, Token(plan.job.jti, plan.job.secret), plan.job.checked,
                                plan.issued, plan.revoked, plan.draw)
  }

  lemma SameListing(t: Table, t': Table, user: int, now: Time, listing: seq<Family>)
    requires IsListing(t, user, now, listing)
    requires forall k | k in t && t[k].user == user :: k in t' && t'[k] == t[k]
    requires forall k | k in t' && t'[k].user == user :: k in t && t[k] == t'[k]
    ensures IsListing(t', user, now, listing)
  {
    assert ActiveFamilies(t', user, now) == ActiveFamilies(t, user, now);
    forall f, key | IsRecency(t', user, now, f, key) ensures IsRecency(t, user, now, f, key) {
      SameRecency(t', t, user, now, f, key);
    }
    hide IsRecency, ActiveFamilies;
  }

  lemma SameRecency(t: Table, t': Table, user: int, now: Time, f: Family, key: (Time, nat))
    requires IsRecency(t, user, now, f, key)
    requires forall k | k in t && t[k].user == user :: k in t' && t'[k] == t[k]
    requires forall k | k in t' && t'[k].user == user :: k in t && t[k] == t'[k]
    ensures IsRecency(t', user, now, f, key)
  {
  }

  lemma ListedIsListing(t: Table, user: int, plan: Plan)
    requires IsListing(plan.seen, user, plan.listed, plan.listing)
    requires forall k | k in t && t[k].user == user :: k in plan.seen && plan.seen[k] == t[k]
    ensures ListingOf(t, user, plan)
  {
    hide IsListing;
    if forall k | k in plan.seen && plan.seen[k].user == user :: k in t && t[k] == plan.seen[k] {
      SameListing(plan.seen, t, user, plan.listed, plan.listing);
    }
  }

  lemma RenewalActs(st: Settings, s: Sys, x: Txn, plan: Plan, j: Jti)
    requires plan.job.Refresh? && j == plan.job.jti && j in s.rows && Renews(s, x, plan, s.rows[j])
    requires EffectOk(s, x, RefreshEffect(st, plan, s.rows[j], plan.job.checked))
    ensures ActsAsRefresh(st, s.rows, View(s.rows, x.writes), plan)
  {
    var t, row := s.rows, s.rows[j];
    SwapIsRotate(st, t, plan, j);
    RevokeNone(t + Swapped(st, plan, row, plan.job.checked), LoggedOut, plan.revoked);
    hide View, RevokeFamilies, Rotate, Swapped, Renewable;
  }

  lemma SwapIsRotate(st: Settings, t: Table, plan: Plan, j: Jti)
    requires plan.job.Refresh? && j in t && t[j].jti == j && plan.draw.jti !in t
    ensures t + Swapped(st, plan, t[j], plan.job.checked)
         == Rotate(st, t, j, plan.id, plan.draw.jti, plan.draw.secret, plan.job.checked, plan.issued)
  {
    hide NewRow, MarkedRotated;
  }

  lemma ReuseActs(st: Settings, s: Sys, x: Txn, plan: Plan, j: Jti, f: Family)
    requires FinishedOk(st, s, x, plan, Owner(x.pc), Reused(j, f))
    ensures ActsAs(st, s.rows, View(s.rows, x.writes), plan, Owner(x.pc), Reused(j, f))
  {
    assert s.rows + map[] == s.rows;
    hide View, RevokeFamilies, IsReuse;
  }

  lemma EndActs(st: Settings, s: Sys, x: Txn, plan: Plan, j: Jti, f: Family)
    requires FinishedOk(st, s, x, plan, Owner(x.pc), Ended(j, f))
    ensures ActsAs(st, s.rows, View(s.rows, x.writes), plan, Owner(x.pc), Ended(j, f))
  {
    assert s.rows + map[] == s.rows;
    hide View, RevokeFamilies;
  }

  lemma LoginActs(st: Settings, s: Sys, x: Txn, plan: Plan, u: int)
    requires LoginOf(plan.job, u) && LoopOk(st, s, x, plan, u, [])
    ensures ActsAs(st, s.rows, View(s.rows, x.writes), plan, Some(u), LoggedIn)
  {
    hide View, RevokeFamilies, IsListing, NewRow, ListingOf, Overflow, EffectOk, Listed, Doomed;
    LoginView(st, s, x, plan, u);
    LoginListing(st, s, x, plan, u);
  }

  lemma LoginView(st: Settings, s: Sys, x: Txn, plan: Plan, u: int)
    requires LoginOf(plan.job, u) && LoopOk(st, s, x, plan, u, [])
    ensures View(s.rows, x.writes) == RevokeFamilies(s.rows[plan.draw.jti := FirstRow(st, plan, u)],
                                                     ToSet(Overflow(st, plan.listing)), ConcurrencyLimit, plan.listed)
  {
    var all, n := Doomed(st, plan), FirstRow(st, plan, u);
    hide View, RevokeFamilies, IsListing, FirstRow, EffectOk, Overflow, Listed;
    assert all[..|all| - 0] == all;
    assert s.rows + map[plan.draw.jti := n] == s.rows[plan.draw.jti := n];
    EffectView(s, x, LoopEffect(st, plan, u, all));
  }

  lemma LoginListing(st: Settings, s: Sys, x: Txn, plan: Plan, u: int)
    requires LoginOf(plan.job, u) && LoopOk(st, s, x, plan, u, [])
    ensures ListingOf(s.rows[plan.draw.jti := FirstRow(st, plan, u)], u, plan)
  {
    hide View, RevokeFamilies, IsListing, FirstRow, EffectOk, Overflow;
    ListedIsListing(s.rows[plan.draw.jti := FirstRow(st, plan, u)], u, plan);
  }

  lemma EffectView(s: Sys, x: Txn, e: Effect)
    requires EffectOk(s, x, e)
    ensures View(s.rows, x.writes) == Apply(s.rows, e)
  {
    hide View, Apply;
  }

  lemma ChangeActs(st: Settings, s: Sys, x: Txn, plan: Plan, u: int, f: Family, n: Time)
    requires FinishedOk(st, s, x, plan, Some(u), Changed(u, f, n))
    ensures ActsAs(st, s.rows, View(s.rows, x.writes), plan, Some(u), Changed(u, f, n))
  {
    ChangeView(st, s, x, plan, u, f, n);
    ListedIsListing(s.rows, u, plan);
    hide View, RevokeFamilies, IsListing, NewRow, EffectOk, ListingOf, ChangeEffect;
  }

  lemma ChangeView(st: Settings, s: Sys, x: Txn, plan: Plan, u: int, f: Family, n: Time)
    requires FinishedOk(st, s, x, plan, Some(u), Changed(u, f, n))
    ensures View(s.rows, x.writes)
         == RowsAfterIssue(st, RevokeFamilies(s.rows, ToSet(plan.listing), PasswordChanged, plan.listed),
                           plan.id, u, f, plan.draw, plan.issued)
  {
    hide View, RevokeFamilies, EffectOk, Listed;
    FirstOf(st, plan, u);
    assert f !in ToSet(plan.listing) && plan.family == f && plan.draw.jti !in s.rows;
    assert EffectOk(s, x, ChangeEffect(st, plan, u));
    hide FinishedOk, ToSet, FirstRow, NewRow;
    EffectView(s, x, ChangeEffect(st, plan, u));
    AddAfterRevoking(s.rows, ToSet(plan.listing), PasswordChanged, plan.listed, plan.draw.jti, FirstRow(st, plan, u));
  }

  /** In every run, every commit turns the committed rows, as they are at that moment, into what the use
      case of the transaction's job makes of them: with the clock readings, ids and uuids that its
      statements took, and for a login or a change of password with a listing of these very rows, unless
      a cleanup has removed some of the user's rows since it was taken. */
  lemma EveryCommitIsItsUseCase(st: Settings, states: seq<Sys>, acts: seq<Action>, i: nat, p: Pid)
    requires IsRun(st, states, acts) && i < |acts| && acts[i] == Commit(p)
    ensures p in states[i].txns && states[i].txns[p].pc.Finished? && p in PlansAt(states, acts, i)
    ensures var pc := states[i].txns[p].pc;
      ActsAs(st, states[i].rows, states[i + 1].rows, PlansAt(states, acts, i)[p], pc.owner, pc.result)
  {
    hide SysOk, SpecOk, ActsAs;
    AllRunSpec(st, states, acts, i);
    Reachable(st, states, acts, i);
    var s := states[i];
    assert Step(st, s, acts[i], states[i + 1]);
    FinishedActs(st, s, p, PlansAt(states, acts, i)[p]);
    hide View;
  }

  lemma FinishedActs(st: Settings, s: Sys, p: Pid, plan: Plan)
    requires SysOk(st, s) && p in s.txns && s.txns[p].pc.Finished? && SpecOk(st, s, s.txns[p], plan)
    ensures var x := s.txns[p]; ActsAs(st, s.rows, View(s.rows, x.writes), plan, x.pc.owner, x.pc.result)
  {
    TxnAndRows(st, s, p);
    var x := s.txns[p];
    hide SysOk, ActsAs, FinishedOk, View, EffectOk;
    assert FinishedOk(st, s, x, plan, x.pc.owner, x.pc.result);
    match x.pc.result
    case Invalid => InvalidActs(st, s, x, plan);
    case Renewed(j) => RenewedActs(st, s, x, plan, j);
    case Denied(j, f) => RenewedActs(st, s, x, plan, j);
    case Reused(j, f) => ReuseActs(st, s, x, plan, j, f);
    case Ended(j, f) => EndActs(st, s, x, plan, j, f);
    case LoggedIn => LoggedInActs(st, s, x, plan);
    case Changed(u, f, n) => ChangedActs(st, s, x, plan, u, f, n);
  }

  lemma InvalidActs(st: Settings, s: Sys, x: Txn, plan: Plan)
    requires x.pc.Finished? && x.pc.result == Invalid && FinishedOk(st, s, x, plan, x.pc.owner, x.pc.result)
        && PcOk(s, x)
    ensures ActsAs(st, s.rows, View(s.rows, x.writes), plan, x.pc.owner, x.pc.result)
  {
    NoWrites(s.rows);
  }

  lemma RenewedActs(st: Settings, s: Sys, x: Txn, plan: Plan, j: Jti)
    requires x.pc.Finished? && FinishedOk(st, s, x, plan, x.pc.owner, x.pc.result)
    requires (x.pc.result.Renewed? || x.pc.result.Denied?) && x.pc.result.from == j
    ensures ActsAs(st, s.rows, View(s.rows, x.writes), plan, x.pc.owner, x.pc.result)
  {
    RenewalActs(st, s, x, plan, j);
    hide View, EffectOk, ActsAsRefresh;
  }

  lemma LoggedInActs(st: Settings, s: Sys, x: Txn, plan: Plan)
    requires x.pc.Finished? && x.pc.result == LoggedIn && FinishedOk(st, s, x, plan, x.pc.owner, x.pc.result)
    ensures ActsAs(st, s.rows, View(s.rows, x.writes), plan, x.pc.owner, x.pc.result)
  {
    hide LoopOk, ActsAs, View;
    LoginActs(st, s, x, plan, x.pc.owner.value);
  }

  lemma ChangedActs(st: Settings, s: Sys, x: Txn, plan: Plan, u: int, f: Family, n: Time)
    requires x.pc.Finished? && x.pc.result == Changed(u, f, n) && FinishedOk(st, s, x, plan, x.pc.owner, x.pc.result)
    ensures ActsAs(st, s.rows, View(s.rows, x.writes), plan, x.pc.owner, x.pc.result)
  {
    ChangeActs(st, s, x, plan, u, f, n);
    hide ActsAs, View, EffectOk, Listed;
  }

  /** The use case of the job finds nothing to renew or to revoke, or refuses the password. */
  predicate Inert(s: Sys, job: Job) {
    if !IsToken(job) then !Verifies(s, job)
    else Presented(s.rows, Token(job.jti, job.secret)) ==>
      job.Refresh? && !IsReuse(s.rows[job.jti]) && !Renewable(s.rows[job.jti], job.checked)
  }

  lemma InertLeavesRows(st: Settings, s: Sys, job: Job, users: map<int, User>, id: nat, issued: Time, revoked: Time,
                        draw: Draw, now: Time)
    requires Inert(s, job) && draw.jti !in s.rows
    ensures job.Refresh? ==>
              RowsAfterRefresh(st, s.rows, users, id, Token(job.jti, job.secret), job.checked, issued, revoked, draw)
              == s.rows
    ensures job.Logout? ==> RowsAfterLogout(s.rows, Token(job.jti, job.secret), now) == s.rows
  {
    hide IsReuse, Renewable, RevokeFamilies, Rotate;
  }

  lemma InvalidIsInert(st: Settings, s: Sys, a: Action, s': Sys, p: Pid, plan: Plan)
    requires a == ReadUser(p) || a == ReadRow(p) || a == Reject(p)
    requires Step(st, s, a, s') && p in s.txns && SpecOk(st, s, s.txns[p], plan)
    requires p in s'.txns && s'.txns[p].pc.Finished? && s'.txns[p].pc.result == Invalid
    ensures Inert(s, plan.job)
  {
    AfterSetPc(s, p);
    hide SetPc, RevokeIn, IsReuse, Renewable;
  }

  /** A request is refused as invalid only when the use case, at the moment of the look-up that decides it,
      would have left the rows alone too, or refused the password. */
  lemma InvalidWhenLookedUp(st: Settings, states: seq<Sys>, acts: seq<Action>, i: nat, p: Pid, users: map<int, User>,
                            id: nat, issued: Time, revoked: Time, draw: Draw, now: Time)
    requires IsRun(st, states, acts) && i < |acts|
        && (acts[i] == ReadUser(p) || acts[i] == ReadRow(p) || acts[i] == Reject(p))
    requires p in states[i + 1].txns && states[i + 1].txns[p].pc.Finished? && states[i + 1].txns[p].pc.result == Invalid
    requires draw.jti !in states[i].rows
    ensures p in PlansAt(states, acts, i)
    ensures var t, job := states[i].rows, PlansAt(states, acts, i)[p].job;
      && (job.Refresh? ==>
            RowsAfterRefresh(st, t, users, id, Token(job.jti, job.secret), job.checked, issued, revoked, draw) == t)
      && (job.Logout? ==> RowsAfterLogout(t, Token(job.jti, job.secret), now) == t)
      && (!IsToken(job) ==> !Verifies(states[i], job))
  {
    hide SpecOk, RowsAfterRefresh, RowsAfterLogout;
    AllRunSpec(st, states, acts, i);
    var s, s' := states[i], states[i + 1];
    assert Step(st, s, acts[i], s');
    hide IsRun;
    InvalidIsInert(st, s, acts[i], s', p, PlansAt(states, acts, i)[p]);
    InertLeavesRows(st, s, PlansAt(states, acts, i)[p].job, users, id, issued, revoked, draw, now);
    hide Step;
  }
}
