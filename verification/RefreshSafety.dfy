/** The invariant of RefreshConcurrent holds in every state of every run. */
module RefreshSafety {
  import opened Wrappers
  import opened RefreshTable
  import opened RefreshService
  import opened RefreshConcurrent

  // ---------- The invariant of a table is a matter of one lock bucket at a time ----------

  lemma InvWithMoreOrigins(st: Settings, o: map<Family, Origin>, o': map<Family, Origin>, t: Table)
    requires Inv(st, o, t) && forall f | f in o :: f in o' && o'[f] == o[f]
    ensures Inv(st, o', t)
  {
    forall j | j in t ensures RowOk(st, o', j, t[j]) && LinkOk(t, t[j]) {
      assert RowOk(st, o, j, t[j]);
    }
  }

  /** The part of `t` in one bucket comes from `b`, the rest from `a`. */
  ghost predicate Splice(t: Table, a: Table, b: Table, bucket: nat) {
    && (forall j | j in t :: if Bucket(t[j].user) == bucket then j in b && b[j] == t[j] else j in a && a[j] == t[j])
    && (forall j | j in b && Bucket(b[j].user) == bucket :: j in t && t[j] == b[j])
    && (forall j | j in a && Bucket(a[j].user) != bucket :: j in t && t[j] == a[j])
  }

  lemma InvIsLocal(st: Settings, o: map<Family, Origin>, t: Table, a: Table, b: Table, bucket: nat)
    requires Inv(st, o, a) && Inv(st, o, b) && Splice(t, a, b, bucket)
    ensures Inv(st, o, t)
  {
    forall j | j in t ensures RowOk(st, o, j, t[j]) && LinkOk(t, t[j]) {
      var c := if Bucket(t[j].user) == bucket then b else a;
      assert RowOk(st, o, j, c[j]) && LinkOk(c, c[j]);
      if t[j].rotatedTo.Some? { assert RowOk(st, o, t[j].rotatedTo.value, c[t[j].rotatedTo.value]); }
    }
    forall j, k | j in t && k in t ensures OrderOk(t, t[j], t[k]) {
      assert RowOk(st, o, j, t[j]) && RowOk(st, o, k, t[k]);
      if Bucket(t[j].user) == Bucket(t[k].user) == bucket {
        assert OrderOk(b, b[j], b[k]) && LinkOk(t, t[j]);
        if t[j].rotatedTo.Some? && t[j].rotatedTo.value in b { assert RowOk(st, o, t[j].rotatedTo.value,
            b[t[j].rotatedTo.value]); }
      } else if Bucket(t[j].user) == Bucket(t[k].user) {
        assert OrderOk(a, a[j], a[k]) && LinkOk(t, t[j]);
        if t[j].rotatedTo.Some? && t[j].rotatedTo.value in a { assert RowOk(st, o, t[j].rotatedTo.value,
            a[t[j].rotatedTo.value]); }
      }
    }
  }

  lemma RevokeInView(rows: Table, writes: Table, f: Family, reason: Reason, now: Time)
    ensures View(rows, RevokeIn(rows, writes, f, reason, now)) == RevokeFamilies(View(rows, writes), {f}, reason, now)
  {
  }

  // ---------- A step of one transaction leaves the others as they were ----------

  /** Nothing is committed between s and s', and nobody else's lock is taken away. */
  ghost predicate Quiet(s: Sys, s': Sys) {
    && s'.rows == s.rows && s'.past == s.past && s'.known == s.known && s'.rotated == s.rotated
    && s.nextId <= s'.nextId && s.clock <= s'.clock
    && (forall f | f in s.origins :: f in s'.origins && s'.origins[f] == s.origins[f])
    && (forall j | j in s.issued :: j in s'.issued && s'.issued[j] == s.issued[j])
    && (forall j | j in s'.issued :: s'.issued[j] in s'.origins)
  }

  lemma QuietKeepsTable(st: Settings, s: Sys, s': Sys)
    requires TableOk(st, s) && Quiet(s, s')
    ensures TableOk(st, s')
  {
    hide Inv;
    InvWithMoreOrigins(st, s.origins, s'.origins, s.rows);
    forall j | j in s'.rows ensures Stored(s', j, s'.rows[j]) && j in s'.past && s'.rows[j].family in s'.known {
      assert Stored(s, j, s.rows[j]);
    }
  }

  lemma QuietKeepsTxn(st: Settings, s: Sys, s': Sys, p: Pid, x: Txn)
    requires TxnOk(st, s, p, x) && Quiet(s, s')
    requires forall b | b in s.locks && s.locks[b] == p :: b in s'.locks && s'.locks[b] == p
    ensures TxnOk(st, s', p, x)
  {
    hide Inv, PcOk, Settled, View;
    InvWithMoreOrigins(st, s.origins, s'.origins, Settled(s.rows, x));
    forall j | j in x.writes ensures WriteOk(s', x, j) {
      assert WriteOk(s, x, j);
    }
    QuietKeepsPc(s, s', x);
  }

  lemma QuietKeepsPc(s: Sys, s': Sys, x: Txn)
    requires PcOk(s, x) && Quiet(s, s')
    ensures PcOk(s', x)
  {
  }

  /** The step touches no transaction but p, and no lock but p's. */
  ghost predicate OnlyOf(s: Sys, s': Sys, p: Pid) {
    && (forall q | q in s'.txns && q != p :: q in s.txns && s'.txns[q] == s.txns[q])
    && (forall b | b in s.locks && s.locks[b] != p :: b in s'.locks && s'.locks[b] == s.locks[b])
  }

  lemma QuietStep(st: Settings, s: Sys, s': Sys, p: Pid)
    requires SysOk(st, s) && Quiet(s, s') && OnlyOf(s, s', p)
    requires p in s'.txns ==> TxnOk(st, s', p, s'.txns[p])
    ensures SysOk(st, s')
  {
    hide Inv;
    QuietKeepsTable(st, s, s');
    forall q | q in s'.txns ensures TxnOk(st, s', q, s'.txns[q]) {
      if q != p { QuietKeepsTxn(st, s, s', q, s.txns[q]); }
    }
  }

  /** Pending writes stay in order when the transaction moves on. */
  lemma WriteStaysOk(s: Sys, x: Txn, s': Sys, x': Txn, j: Jti)
    requires Quiet(s, s')
    requires j in x.writes && WriteOk(s, x, j) && j in x'.writes && x'.writes[j] == x.writes[j]
    requires Owner(x'.pc) == Owner(x.pc)
    requires RotatesIn(s, x.pc, x.writes[j].family) ==> RotatesIn(s', x'.pc, x.writes[j].family)
    ensures WriteOk(s', x', j)
  {
  }

  // ---------- The steps that commit nothing ----------

  lemma TheTxn(st: Settings, s: Sys, p: Pid)
    requires SysOk(st, s) && p in s.txns
    ensures TableOk(st, s) && TxnOk(st, s, p, s.txns[p])
  {
  }

  lemma AfterSetPc(s: Sys, p: Pid)
    ensures forall pc, w :: var s' := SetPc(s, p, pc, w);
      && p in s'.txns && s'.txns[p] == Txn(pc, w)
      && s'.rows == s.rows && s'.clock == s.clock && s'.issued == s.issued && s'.origins == s.origins
  {
  }

  lemma PcIsSet(s: Sys, p: Pid)
    ensures forall pc, w :: var s' := SetPc(s, p, pc, w);
      p in s'.txns && s' == SetPc(s, p, s'.txns[p].pc, s'.txns[p].writes)
  {
  }

  lemma ReadUserSetsPc(s: Sys, p: Pid, s': Sys)
    requires StepReadUser(s, p, s')
    ensures p in s'.txns && s' == SetPc(s, p, s'.txns[p].pc, s'.txns[p].writes)
  {
    PcIsSet(s, p);
    hide SetPc, Verifies;
  }

  lemma ReadRowSetsPc(s: Sys, p: Pid, s': Sys)
    requires StepReadRow(s, p, s')
    ensures p in s'.txns && s' == SetPc(s, p, s'.txns[p].pc, s'.txns[p].writes)
  {
    PcIsSet(s, p);
    hide SetPc;
  }

  lemma SetPcLeaves(s: Sys, p: Pid, s': Sys)
    requires p in s'.txns && s' == SetPc(s, p, s'.txns[p].pc, s'.txns[p].writes)
    ensures s'.rows == s.rows && s'.clock == s.clock && s'.issued == s.issued && s'.origins == s.origins
    ensures s'.locks == s.locks && s'.nextId == s.nextId && s'.past == s.past && s'.known == s.known
  {
  }

  lemma RejectShape(s: Sys, p: Pid, s': Sys)
    requires StepReject(s, p, s')
    ensures var x := s.txns[p]; var row := x.pc.row;
      && p in s'.txns && s'.rows == s.rows && s'.origins == s.origins
      && s'.txns[p] == (
           if !x.pc.job.Refresh? then
             Txn(Finished(Some(row.user), Ended(row.jti, row.family)),
                 RevokeIn(s.rows, x.writes, row.family, LoggedOut, s.clock))
           else if IsReuse(row) then
             Txn(Finished(Some(row.user), Reused(row.jti, row.family)),
                 RevokeIn(s.rows, x.writes, row.family, ReuseDetected, x.pc.job.checked))
           else Txn(Finished(Some(row.user), Invalid), x.writes))
  {
    AfterSetPc(s, p);
    hide SetPc, RevokeIn, IsReuse, Renewable;
  }

  lemma CheckShape(s: Sys, p: Pid, s': Sys)
    requires StepCheckUser(s, p, s')
    ensures var x := s.txns[p]; var row := x.pc.row;
      && p in s'.txns && s'.rows == s.rows && s'.origins == s.origins
      && s'.txns[p] == (
           if row.user in s.enabled then Txn(Finished(Some(row.user), Result.Renewed(row.jti)), x.writes)
           else Txn(Finished(Some(row.user), Denied(row.jti, row.family)),
                    RevokeIn(s.rows, x.writes, row.family, LoggedOut, s.clock)))
  {
    AfterSetPc(s, p);
    hide SetPc, RevokeIn;
  }

  lemma StoredUser(st: Settings, s: Sys, j: Jti)
    requires TableOk(st, s) && j in s.rows
    ensures j in s.issued && s.issued[j] == s.rows[j].family && s.rows[j].family in s.origins
    ensures s.origins[s.rows[j].family].user == s.rows[j].user && s.rows[j].jti == j
  {
    assert Stored(s, j, s.rows[j]);
    assert RowOk(st, s.origins, j, s.rows[j]);
  }

  lemma ReadUserKeeps(st: Settings, s: Sys, p: Pid, s': Sys)
    requires SysOk(st, s) && StepReadUser(s, p, s')
    ensures SysOk(st, s')
  {
    hide Inv, TableOk, SysOk, TxnOk, Quiet, SetPc;
    TheTxn(st, s, p);
    ReadUserSetsPc(s, p, s');
    QuietlyPc(st, s, p, s');
    ReadUserTxn(st, s, p, s');
    hide StepReadUser;
    QuietStep(st, s, s', p);
  }

  lemma ReadUserTxn(st: Settings, s: Sys, p: Pid, s': Sys)
    requires p in s.txns && p in s'.txns && TableOk(st, s) && StepReadUser(s, p, s')
    ensures TxnOk(st, s', p, s'.txns[p])
  {
    hide Inv, WriteOk;
    ReadUserShape(s, p, s');
    var job, pc := s.txns[p].pc.job, s'.txns[p].pc;
    if IsToken(job) && job.jti in s.rows { StoredUser(st, s, job.jti); }
    assert pc.Known? ==> Names(s', job, pc.user);
    hide StepReadUser, Names;
    assert View(s.rows, map[]) == s.rows;
  }

  lemma ReadUserShape(s: Sys, p: Pid, s': Sys)
    requires StepReadUser(s, p, s')
    ensures p in s'.txns && s'.txns[p].writes == map[] && s'.rows == s.rows && s'.origins == s.origins
    ensures s'.issued == s.issued && s'.clock == s.clock
    ensures var job, pc := s.txns[p].pc.job, s'.txns[p].pc;
      || pc == Finished(None, Invalid)
      || (&& pc.Known? && pc.job == job
          && if IsToken(job) then job.jti in s.rows && pc.user == s.rows[job.jti].user else pc.user == job.user)
  {
    AfterSetPc(s, p);
    hide SetPc;
  }

  lemma TakeLockKeeps(st: Settings, s: Sys, p: Pid, s': Sys)
    requires SysOk(st, s) && StepTakeLock(s, p, s')
    ensures SysOk(st, s')
  {
    hide Inv, TableOk, SysOk, WriteOk;
    TheTxn(st, s, p);
    assert View(s.rows, map[]) == s.rows;
    assert Quiet(s, s') && OnlyOf(s, s', p);
    assert TxnOk(st, s', p, s'.txns[p]);
    QuietStep(st, s, s', p);
  }

  lemma ReadRowKeeps(st: Settings, s: Sys, p: Pid, s': Sys)
    requires SysOk(st, s) && StepReadRow(s, p, s')
    ensures SysOk(st, s')
  {
    hide Inv, TableOk, SysOk, TxnOk, Quiet, SetPc;
    TheTxn(st, s, p);
    ReadRowSetsPc(s, p, s');
    QuietlyPc(st, s, p, s');
    ReadRowTxn(st, s, p, s');
    hide StepReadRow;
    QuietStep(st, s, s', p);
  }

  lemma ReadRowTxn(st: Settings, s: Sys, p: Pid, s': Sys)
    requires p in s.txns && p in s'.txns && TableOk(st, s) && TxnOk(st, s, p, s.txns[p]) && StepReadRow(s, p, s')
    ensures TxnOk(st, s', p, s'.txns[p])
  {
    ReadRowShape(s, p, s');
    ReadRowSetsPc(s, p, s');
    hide SetPc;
    SetPcLeaves(s, p, s');
    hide Inv, WriteOk;
    var job := s.txns[p].pc.job;
    if job.jti in s.rows { StoredUser(st, s, job.jti); }
    assert View(s.rows, map[]) == s.rows;
    hide StepReadRow, View;
  }

  lemma ReadRowShape(s: Sys, p: Pid, s': Sys)
    requires StepReadRow(s, p, s')
    ensures var pc := s.txns[p].pc;
      && p in s'.txns && s'.txns[p].writes == map[]
      && (s'.txns[p].pc == Finished(Some(pc.user), Invalid)
          || (pc.job.jti in s.rows && s'.txns[p].pc == Checked(pc.job, s.rows[pc.job.jti])))
  {
    AfterSetPc(s, p);
    hide SetPc;
  }

  /** A transaction past its checks revokes a family of its own user. */
  lemma RevokeInKeeps(st: Settings, s: Sys, p: Pid, x: Txn, f: Family, reason: Reason, now: Time, x': Txn, s': Sys)
    requires TableOk(st, s) && TxnOk(st, s, p, x) && !x.pc.Inserted? && !x'.pc.Inserted?
    requires f in s.origins && Owner(x.pc) == Some(s.origins[f].user) && Owner(x'.pc) == Owner(x.pc)
    requires forall j | j in x.writes && RotatesIn(s, x.pc, x.writes[j].family) ::
               RotatesIn(s', x'.pc, x.writes[j].family)
    requires reason != Rotated
    requires x'.writes == RevokeIn(s.rows, x.writes, f, reason, now) && s' == s.(txns := s.txns[p := x'])
    ensures forall j | j in x'.writes :: WriteOk(s', x', j)
    ensures Inv(st, s'.origins, Settled(s'.rows, x'))
    ensures View(s'.rows, x'.writes) == RevokeFamilies(View(s.rows, x.writes), {f}, reason, now)
  {
    hide Inv, TableOk, TxnOk, WriteOk;
    TxnParts(st, s, p, x);
    RevokeInView(s.rows, x.writes, f, reason, now);
    RevokeKeepsInv(st, s.origins, View(s.rows, x.writes), {f}, reason, now);
    forall j | j in x'.writes ensures WriteOk(s', x', j) {
      RevokedWriteOk(st, s, x, f, reason, now, x', j, s');
    }
  }

  lemma TxnParts(st: Settings, s: Sys, p: Pid, x: Txn)
    requires TxnOk(st, s, p, x)
    ensures forall j | j in x.writes :: WriteOk(s, x, j)
    ensures Inv(st, s.origins, Settled(s.rows, x))
    ensures PcOk(s, x)
  {
    hide Inv, WriteOk, PcOk;
  }

  lemma RevokedWriteOk(st: Settings, s: Sys, x: Txn, f: Family, reason: Reason, now: Time, x': Txn, j: Jti, s': Sys)
    requires TableOk(st, s) && forall j | j in x.writes :: WriteOk(s, x, j)
    requires f in s.origins && Owner(x.pc) == Some(s.origins[f].user) && Owner(x'.pc) == Owner(x.pc)
    requires forall j | j in x.writes && RotatesIn(s, x.pc, x.writes[j].family) ::
               RotatesIn(s', x'.pc, x.writes[j].family)
    requires x'.writes == RevokeIn(s.rows, x.writes, f, reason, now) && s' == s.(txns := s'.txns)
    requires j in x'.writes
    ensures WriteOk(s', x', j)
  {
    hide Inv;
    if j in x.writes {
      assert WriteOk(s, x, j);
    } else {
      assert Stored(s, j, s.rows[j]);
    }
  }

  lemma RejectKeeps(st: Settings, s: Sys, p: Pid, s': Sys)
    requires SysOk(st, s) && StepReject(s, p, s')
    ensures SysOk(st, s')
  {
    hide Inv, TableOk, SysOk, TxnOk, Quiet;
    TheTxn(st, s, p);
    if !s.txns[p].pc.job.Refresh? { RejectLogout(st, s, p, s'); }
    else if IsReuse(s.txns[p].pc.row) { RejectReuse(st, s, p, s'); }
    else { RejectInvalid(st, s, p, s'); }
    QuietStep(st, s, s', p);
  }

  lemma RejectInvalid(st: Settings, s: Sys, p: Pid, s': Sys)
    requires p in s.txns && TableOk(st, s) && TxnOk(st, s, p, s.txns[p]) && StepReject(s, p, s')
    requires s.txns[p].pc.job.Refresh? && !IsReuse(s.txns[p].pc.row)
    ensures Quiet(s, s') && OnlyOf(s, s', p) && TxnOk(st, s', p, s'.txns[p])
  {
    hide Inv;
  }

  lemma RejectReuse(st: Settings, s: Sys, p: Pid, s': Sys)
    requires p in s.txns && TableOk(st, s) && TxnOk(st, s, p, s.txns[p]) && StepReject(s, p, s')
    requires s.txns[p].pc.job.Refresh? && IsReuse(s.txns[p].pc.row)
    ensures Quiet(s, s') && OnlyOf(s, s', p) && TxnOk(st, s', p, s'.txns[p])
  {
    hide Inv, WriteOk, RevokeIn;
    var x := s.txns[p];
    StoredUser(st, s, x.pc.row.jti);
    QuietlyPc(st, s, p, s');
    RevokeInKeeps(st, s, p, x, x.pc.row.family, ReuseDetected, x.pc.job.checked, s'.txns[p], s');
  }

  lemma RejectLogout(st: Settings, s: Sys, p: Pid, s': Sys)
    requires p in s.txns && TableOk(st, s) && TxnOk(st, s, p, s.txns[p]) && StepReject(s, p, s')
    requires !s.txns[p].pc.job.Refresh?
    ensures Quiet(s, s') && OnlyOf(s, s', p) && TxnOk(st, s', p, s'.txns[p])
  {
    hide Inv, WriteOk, RevokeIn;
    var x := s.txns[p];
    StoredUser(st, s, x.pc.row.jti);
    QuietlyPc(st, s, p, s');
    RevokeInKeeps(st, s, p, x, x.pc.row.family, LoggedOut, s.clock, s'.txns[p], s');
  }

  lemma QuietlyPc(st: Settings, s: Sys, p: Pid, s': Sys)
    requires TableOk(st, s) && p in s.txns && p in s'.txns && s' == SetPc(s, p, s'.txns[p].pc, s'.txns[p].writes)
    ensures Quiet(s, s') && OnlyOf(s, s', p)
  {
    hide Inv;
  }

  lemma EverythingIsBefore(st: Settings, s: Sys, p: Pid, x: Txn, user: int)
    requires TableOk(st, s) && TxnOk(st, s, p, x)
    ensures Before(View(s.rows, x.writes), user, s.nextId, s.clock)
    ensures forall j | j in View(s.rows, x.writes) :: j in s.issued
  {
    hide Inv;
    var v := View(s.rows, x.writes);
    forall j | j in v ensures j in s.issued && v[j].id < s.nextId && v[j].issuedAt <= s.clock {
      if j in x.writes { assert WriteOk(s, x, j); } else { assert Stored(s, j, s.rows[j]); }
    }
  }

  lemma InsertNextKeeps(st: Settings, s: Sys, p: Pid, next: Jti, secret: nat, s': Sys)
    requires SysOk(st, s) && StepInsertNext(st, s, p, next, secret, s')
    ensures SysOk(st, s')
  {
    hide Inv, SysOk, TxnOk, TableOk, Settled, Quiet;
    TheTxn(st, s, p);
    InsertNextTable(st, s, p, next, secret, s');
    InsertNextTxn(st, s, p, next, secret, s');
    QuietStep(st, s, s', p);
  }

  lemma InsertNextTable(st: Settings, s: Sys, p: Pid, next: Jti, secret: nat, s': Sys)
    requires p in s.txns && TableOk(st, s) && TxnOk(st, s, p, s.txns[p]) && StepInsertNext(st, s, p, next, secret, s')
    ensures var row := s.txns[p].pc.row;
            Settled(s'.rows, s'.txns[p]) == Rotate(st, s.rows, row.jti, s.nextId, next, secret,
                s.txns[p].pc.job.checked, s.clock)
    ensures Inv(st, s'.origins, Settled(s'.rows, s'.txns[p]))
  {
    hide Inv, WriteOk;
    var x := s.txns[p];
    var row := x.pc.row;
    EverythingIsBefore(st, s, p, x, row.user);
    assert View(s.rows, x.writes) == s.rows;
    RotateKeepsInv(st, s.origins, s.rows, row.jti, s.nextId, next, secret, x.pc.job.checked, s.clock);
    assert Settled(s'.rows, s'.txns[p])
        == Rotate(st, s.rows, row.jti, s.nextId, next, secret, x.pc.job.checked, s.clock);
  }

  lemma InsertNextTxn(st: Settings, s: Sys, p: Pid, next: Jti, secret: nat, s': Sys)
    requires p in s.txns && TableOk(st, s) && TxnOk(st, s, p, s.txns[p]) && StepInsertNext(st, s, p, next, secret, s')
    requires Inv(st, s'.origins, Settled(s'.rows, s'.txns[p]))
    ensures Quiet(s, s') && OnlyOf(s, s', p) && TxnOk(st, s', p, s'.txns[p])
  {
    hide Inv, Settled, TableOk, PcOk, WriteOk, Quiet;
    InsertNextIsQuiet(st, s, p, next, secret, s');
    InsertNextWrites(st, s, p, next, secret, s');
    InsertNextPc(st, s, p, next, secret, s');
  }

  lemma InsertNextIsQuiet(st: Settings, s: Sys, p: Pid, next: Jti, secret: nat, s': Sys)
    requires p in s.txns && TableOk(st, s) && TxnOk(st, s, p, s.txns[p]) && StepInsertNext(st, s, p, next, secret, s')
    ensures Quiet(s, s') && OnlyOf(s, s', p) && next !in s.rows && next !in s.past
  {
    hide Inv, Settled, WriteOk, Renewable, NewRow;
    StoredUser(st, s, s.txns[p].pc.row.jti);
    assert forall j | j in s.rows :: j in s.past;
  }

  lemma InsertNextWrites(st: Settings, s: Sys, p: Pid, next: Jti, secret: nat, s': Sys)
    requires p in s.txns && TableOk(st, s) && TxnOk(st, s, p, s.txns[p]) && StepInsertNext(st, s, p, next, secret, s')
    requires Quiet(s, s') && next !in s.rows && next !in s.past
    ensures forall j | j in s'.txns[p].writes :: j == next && WriteOk(s', s'.txns[p], j)
  {
    hide Inv, Settled, Renewable;
    StoredUser(st, s, s.txns[p].pc.row.jti);
    hide TableOk;
  }

  lemma InsertNextPc(st: Settings, s: Sys, p: Pid, next: Jti, secret: nat, s': Sys)
    requires p in s.txns && TableOk(st, s) && TxnOk(st, s, p, s.txns[p]) && StepInsertNext(st, s, p, next, secret, s')
    requires next !in s.rows
    ensures PcOk(s', s'.txns[p]) && s'.locks == s.locks && Owner(s'.txns[p].pc) == Owner(s.txns[p].pc)
  {
    hide Inv, Settled, WriteOk, NewRow, Renewable, TableOk;
  }

  lemma MarkOldKeeps(st: Settings, s: Sys, p: Pid, s': Sys)
    requires SysOk(st, s) && StepMarkOld(s, p, s')
    ensures SysOk(st, s')
  {
    hide Inv, TableOk, SysOk, Quiet, PcOk, WriteOk, Settled;
    TheTxn(st, s, p);
    QuietlyPc(st, s, p, s');
    MarkOldWrites(st, s, p, s');
    MarkOldPc(st, s, p, s');
    QuietStep(st, s, s', p);
  }

  lemma MarkOldWrites(st: Settings, s: Sys, p: Pid, s': Sys)
    requires p in s.txns && TableOk(st, s) && TxnOk(st, s, p, s.txns[p]) && StepMarkOld(s, p, s')
    ensures p in s'.txns && forall j | j in s'.txns[p].writes :: WriteOk(s', s'.txns[p], j)
  {
    hide Inv, Settled, View;
    var x := s.txns[p];
    StoredUser(st, s, x.pc.row.jti);
    assert WriteOk(s, x, x.pc.next);
    assert Stored(s, x.pc.row.jti, s.rows[x.pc.row.jti]);
    hide TableOk;
  }

  lemma MarkOldPc(st: Settings, s: Sys, p: Pid, s': Sys)
    requires p in s.txns && TableOk(st, s) && TxnOk(st, s, p, s.txns[p]) && StepMarkOld(s, p, s')
    ensures p in s'.txns && PcOk(s', s'.txns[p]) && s'.locks == s.locks && Owner(s'.txns[p].pc) == Owner(s.txns[p].pc)
    ensures Inv(st, s'.origins, Settled(s'.rows, s'.txns[p])) && s'.origins == s.origins
  {
    hide Inv, TableOk, WriteOk;
    assert View(s'.rows, s'.txns[p].writes) == Settled(s.rows, s.txns[p]);
  }

  lemma CheckUserKeeps(st: Settings, s: Sys, p: Pid, s': Sys)
    requires SysOk(st, s) && StepCheckUser(s, p, s')
    ensures SysOk(st, s')
  {
    hide Inv, TableOk, SysOk, TxnOk, Quiet;
    TheTxn(st, s, p);
    if s.txns[p].pc.row.user in s.enabled { ActiveUser(st, s, p, s'); } else { DisabledUser(st, s, p, s'); }
    QuietStep(st, s, s', p);
  }

  lemma ActiveUser(st: Settings, s: Sys, p: Pid, s': Sys)
    requires p in s.txns && TableOk(st, s) && TxnOk(st, s, p, s.txns[p]) && StepCheckUser(s, p, s')
    requires s.txns[p].pc.row.user in s.enabled
    ensures Quiet(s, s') && OnlyOf(s, s', p) && TxnOk(st, s', p, s'.txns[p])
  {
    hide Inv;
    var x := s.txns[p];
    forall j | j in x.writes ensures WriteOk(s', s'.txns[p], j) {
      WriteStaysOk(s, x, s', s'.txns[p], j);
    }
  }

  lemma DisabledUser(st: Settings, s: Sys, p: Pid, s': Sys)
    requires p in s.txns && TableOk(st, s) && TxnOk(st, s, p, s.txns[p]) && StepCheckUser(s, p, s')
    requires s.txns[p].pc.row.user !in s.enabled
    ensures Quiet(s, s') && OnlyOf(s, s', p) && TxnOk(st, s', p, s'.txns[p])
  {
    hide Inv, WriteOk, RevokeIn;
    QuietlyPc(st, s, p, s');
    var row := s.txns[p].pc.row;
    StoredUser(st, s, row.jti);
    RevokeInKeeps(st, s, p, s.txns[p], row.family, LoggedOut, s.clock, s'.txns[p], s');
  }

  lemma OpenFamilyKeeps(st: Settings, s: Sys, p: Pid, jti: Jti, secret: nat, family: Family, s': Sys)
    requires SysOk(st, s) && StepOpenFamily(st, s, p, jti, secret, family, s')
    ensures SysOk(st, s')
  {
    hide Inv, SysOk, TxnOk, PcOk, WriteOk;
    TheTxn(st, s, p);
    assert Quiet(s, s') && OnlyOf(s, s', p);
    OpenFamilyTable(st, s, p, jti, secret, family, s');
    OpenFamilyWrites(st, s, p, jti, secret, family, s');
    OpenFamilyPc(st, s, p, jti, secret, family, s');
    assert TxnOk(st, s', p, s'.txns[p]) by { OpenFamilyTxn(st, s, p, jti, secret, family, s'); }
    QuietStep(st, s, s', p);
  }

  lemma OpenFamilyTxn(st: Settings, s: Sys, p: Pid, jti: Jti, secret: nat, family: Family, s': Sys)
    requires p in s.txns && TxnOk(st, s, p, s.txns[p])
    requires StepOpenFamily(st, s, p, jti, secret, family, s')
    requires Inv(st, s'.origins, Settled(s'.rows, s'.txns[p])) && PcOk(s', s'.txns[p])
    requires forall j | j in s'.txns[p].writes :: WriteOk(s', s'.txns[p], j)
    ensures TxnOk(st, s', p, s'.txns[p])
  {
    hide Inv, PcOk, WriteOk;
  }

  lemma OpenFamilyTable(st: Settings, s: Sys, p: Pid, jti: Jti, secret: nat, family: Family, s': Sys)
    requires p in s.txns && TableOk(st, s) && TxnOk(st, s, p, s.txns[p]) && Quiet(s, s')
    requires StepOpenFamily(st, s, p, jti, secret, family, s')
    ensures Inv(st, s'.origins, Settled(s'.rows, s'.txns[p]))
    ensures View(s'.rows, s'.txns[p].writes) == View(s.rows, s.txns[p].writes)[jti := s'.txns[p].writes[jti]]
  {
    hide Inv, PcOk, Quiet, TableOk, WriteOk;
    var x := s.txns[p];
    EverythingIsBefore(st, s, p, x, x.pc.user);
    NewFamilyKeepsInv(st, s.origins, View(s.rows, x.writes), s.nextId, jti, family, x.pc.user, secret, s.clock);
    OpenFamilyView(st, s, p, jti, secret, family, s');
    hide View;
  }

  lemma OpenFamilyView(st: Settings, s: Sys, p: Pid, jti: Jti, secret: nat, family: Family, s': Sys)
    requires StepOpenFamily(st, s, p, jti, secret, family, s')
    ensures View(s'.rows, s'.txns[p].writes) == View(s.rows, s.txns[p].writes)[jti := s'.txns[p].writes[jti]]
    ensures !s'.txns[p].pc.Inserted?
  {
    hide NewRow;
  }

  lemma OpenFamilyWrites(st: Settings, s: Sys, p: Pid, jti: Jti, secret: nat, family: Family, s': Sys)
    requires p in s.txns && TableOk(st, s) && TxnOk(st, s, p, s.txns[p]) && Quiet(s, s')
    requires StepOpenFamily(st, s, p, jti, secret, family, s')
    ensures forall j | j in s'.txns[p].writes :: WriteOk(s', s'.txns[p], j)
  {
    hide Inv, PcOk;
    var x := s.txns[p];
    var x' := s'.txns[p];
    assert jti !in s.rows && jti !in s.past by { assert forall j | j in s.rows :: j in s.past; }
    forall j | j in x'.writes ensures WriteOk(s', x', j) {
      if j != jti { WriteStaysOk(s, x, s', x', j); }
    }
  }

  lemma OpenFamilyPc(st: Settings, s: Sys, p: Pid, jti: Jti, secret: nat, family: Family, s': Sys)
    requires p in s.txns && TxnOk(st, s, p, s.txns[p])
    requires StepOpenFamily(st, s, p, jti, secret, family, s')
    requires View(s'.rows, s'.txns[p].writes) == View(s.rows, s.txns[p].writes)[jti := s'.txns[p].writes[jti]]
    ensures PcOk(s', s'.txns[p])
  {
    hide Inv, WriteOk;
  }

  lemma ListedIsOwned(st: Settings, o: map<Family, Origin>, t: Table, user: int, now: Time, f: Family)
    requires Inv(st, o, t) && f in ActiveFamilies(t, user, now)
    ensures f in o && o[f].user == user
  {
    var j :| j in t && Active(t[j], user, now) && t[j].family == f;
    assert RowOk(st, o, j, t[j]);
  }

  lemma ListFamiliesKeeps(st: Settings, s: Sys, p: Pid, listing: seq<Family>, s': Sys)
    requires SysOk(st, s) && StepListFamilies(st, s, p, listing, s')
    ensures SysOk(st, s')
  {
    hide Inv, TableOk, SysOk, TxnOk, PcOk, WriteOk, IsListing;
    TheTxn(st, s, p);
    QuietlyPc(st, s, p, s');
    assert TxnOk(st, s', p, s'.txns[p]) by { ListFamiliesTxn(st, s, p, listing, s'); }
    QuietStep(st, s, s', p);
  }

  lemma ListFamiliesTxn(st: Settings, s: Sys, p: Pid, listing: seq<Family>, s': Sys)
    requires p in s.txns && TxnOk(st, s, p, s.txns[p]) && Quiet(s, s') && StepListFamilies(st, s, p, listing, s')
    ensures TxnOk(st, s', p, s'.txns[p])
  {
    hide Inv, IsListing, PcOk, WriteOk;
    var x := s.txns[p];
    ListFamiliesPc(st, s, p, listing, s');
    assert Owner(s'.txns[p].pc) == Owner(x.pc) && forall f :: !RotatesIn(s, x.pc, f);
    forall j | j in x.writes ensures WriteOk(s', s'.txns[p], j) {
      WriteStaysOk(s, x, s', s'.txns[p], j);
    }
  }

  lemma ListFamiliesPc(st: Settings, s: Sys, p: Pid, listing: seq<Family>, s': Sys)
    requires p in s.txns && Inv(st, s.origins, Settled(s.rows, s.txns[p])) && PcOk(s, s.txns[p])
    requires StepListFamilies(st, s, p, listing, s')
    ensures PcOk(s', s'.txns[p])
  {
    hide Inv, IsListing, Closed, Kept, View, ToSet, ResultOk, SetPc;
    AfterSetPc(s, p);
    var x := s.txns[p];
    ListingCloses(st, s.origins, View(s.rows, x.writes), x.pc.user, s.clock, listing);
    forall f | f in Overflow(st, listing) ensures f in listing {
    }
  }

  lemma ListingCloses(st: Settings, o: map<Family, Origin>, t: Table, user: int, now: Time, listing: seq<Family>)
    requires Inv(st, o, t) && IsListing(t, user, now, listing)
    ensures forall f | f in listing :: f in o && o[f].user == user
    ensures Closed(t, user, now, ToSet(listing))
  {
    forall f | f in listing ensures f in o && o[f].user == user {
      ListedIsOwned(st, o, t, user, now, f);
    }
    forall j | j in t && t[j].user == user && t[j].revokedAt.None? && t[j].expiresAt > now
      ensures t[j].family in listing
    {
      assert t[j].family in ActiveFamilies(t, user, now);
    }
  }

  lemma RevokeOneOfMany(t: Table, user: int, now: Time, queue: seq<Family>, reason: Reason, at: Time)
    requires queue != [] && Closed(t, user, now, ToSet(queue))
    ensures Closed(RevokeFamilies(t, {queue[0]}, reason, at), user, now, ToSet(queue[1..]))
  {
    assert ToSet(queue) == ToSet(queue[1..]) + {queue[0]};
  }

  lemma RevokeNextKeeps(st: Settings, s: Sys, p: Pid, s': Sys)
    requires SysOk(st, s) && StepRevokeNext(s, p, s')
    ensures SysOk(st, s')
  {
    hide Inv, TableOk, SysOk, TxnOk, PcOk, WriteOk;
    TheTxn(st, s, p);
    QuietlyPc(st, s, p, s');
    if s.txns[p].pc.queue != [] { RevokeHead(st, s, p, s'); } else { QueueDone(st, s, p, s'); }
    QuietStep(st, s, s', p);
  }

  lemma RevokeHead(st: Settings, s: Sys, p: Pid, s': Sys)
    requires p in s.txns && TableOk(st, s) && TxnOk(st, s, p, s.txns[p]) && StepRevokeNext(s, p, s')
    requires s.txns[p].pc.queue != []
    ensures TxnOk(st, s', p, s'.txns[p])
  {
    hide Inv, TableOk, Closed, WriteOk;
    var x := s.txns[p];
    var reason := if x.pc.job.Login? then ConcurrencyLimit else PasswordChanged;
    assert x.pc.queue[0] in x.pc.queue;
    RevokeInKeeps(st, s, p, x, x.pc.queue[0], reason, x.pc.listedAt, s'.txns[p], s');
    if x.pc.job.ChangePassword? {
      RevokeOneOfMany(View(s.rows, x.writes), x.pc.user, x.pc.listedAt, x.pc.queue, reason, x.pc.listedAt);
    }
    forall f | f in x.pc.queue[1..] ensures Owns(s', s'.txns[p], f) {
      assert f in x.pc.queue;
    }
  }

  lemma QueueDone(st: Settings, s: Sys, p: Pid, s': Sys)
    requires p in s.txns && TxnOk(st, s, p, s.txns[p]) && Quiet(s, s') && StepRevokeNext(s, p, s')
    requires s.txns[p].pc.queue == []
    ensures TxnOk(st, s', p, s'.txns[p])
  {
    hide Inv;
    var x := s.txns[p];
    forall j | j in x.writes ensures WriteOk(s', s'.txns[p], j) {
      WriteStaysOk(s, x, s', s'.txns[p], j);
    }
  }

  // ---------- Commit ----------

  /** `t'` is `t` with the writes `w` of another transaction, all of them rows of user `u`. */
  ghost predicate Disturbed(t: Table, t': Table, w: Table, u: int) {
    && (forall j | j in t' :: j in w || (j in t && t[j] == t'[j]))
    && (forall j | j in t && j !in w :: j in t' && t'[j] == t[j])
    && (forall j | j in w :: j in t' && t'[j] == w[j] && w[j].user == u)
    && (forall j | j in w && j in t :: t[j].user == u)
  }

  /** Whose rows a transaction writes. */
  ghost predicate OwnWrites(s: Sys, x: Txn) {
    forall j | j in x.writes ::
      && j in s.issued && s.issued[j] == x.writes[j].family && x.writes[j].family in s.origins
      && s.origins[x.writes[j].family].user == x.writes[j].user
      && Owner(x.pc) == Some(x.writes[j].user)
      && (j in s.rows ==> s.rows[j].user == x.writes[j].user && s.rows[j].family == x.writes[j].family)
  }

  lemma TxnOwnsWrites(st: Settings, s: Sys, p: Pid, x: Txn)
    requires TableOk(st, s) && TxnOk(st, s, p, x)
    ensures OwnWrites(s, x)
  {
    hide Inv, PcOk;
    forall j | j in x.writes ensures WriteOk(s, x, j) && (j in s.rows ==> Stored(s, j, s.rows[j])) {
    }
  }

  lemma CommitDisturbs(s: Sys, x: Txn, y: Txn, u: int)
    requires OwnWrites(s, x) && OwnWrites(s, y) && Owner(x.pc) == Some(u)
    requires Owner(y.pc).Some? ==> Bucket(Owner(y.pc).value) != Bucket(u)
    ensures Disturbed(s.rows, View(s.rows, x.writes), x.writes, u)
    ensures Disturbed(View(s.rows, y.writes), View(View(s.rows, x.writes), y.writes), x.writes, u)
    ensures x.writes.Keys !! y.writes.Keys
  {
    forall j | j in x.writes && j in y.writes ensures false {
    }
  }

  lemma CommitSplices(s: Sys, x: Txn, w: Table, u: int, v: int)
    requires Disturbed(View(s.rows, x.writes), View(View(s.rows, w), x.writes), w, u) && Disturbed(s.rows,
        View(s.rows, w), w, u)
    requires Bucket(u) != Bucket(v) && w.Keys !! x.writes.Keys
    requires OwnWrites(s, x) && Owner(x.pc) == Some(v)
    requires x.pc.Inserted? ==> IsPinned(s, x.pc.row)
    ensures Splice(Settled(View(s.rows, w), x), View(s.rows, w), Settled(s.rows, x), Bucket(v))
  {
    hide Bucket;
    assert Splice(View(View(s.rows, w), x.writes), View(s.rows, w), View(s.rows, x.writes), Bucket(v));
    if x.pc.Inserted? {
      hide Splice, Disturbed, OwnWrites;
      var j := x.pc.row.jti;
      assert j in View(s.rows, x.writes) && View(s.rows, x.writes)[j].user == v by { PinnedInView(s, x, v); }
      MarkInSplice(View(View(s.rows, w), x.writes), View(s.rows, w), View(s.rows, x.writes), v, j, x.pc.next,
          x.pc.checked);
    }
  }

  lemma PinnedInView(s: Sys, x: Txn, v: int)
    requires OwnWrites(s, x) && Owner(x.pc) == Some(v) && x.pc.Inserted? && IsPinned(s, x.pc.row)
    ensures x.pc.row.jti in View(s.rows, x.writes) && View(s.rows, x.writes)[x.pc.row.jti].user == v
  {
  }

  lemma MarkInSplice(t: Table, a: Table, b: Table, v: int, j: Jti, next: Jti, now: Time)
    requires Splice(t, a, b, Bucket(v)) && j in b && b[j].user == v
    ensures j in t && Splice(MarkRotated(t, j, next, now), a, MarkRotated(b, j, next, now), Bucket(v))
  {
    hide Bucket;
  }

  lemma CommitKeepsOther(st: Settings, s: Sys, p: Pid, s': Sys, q: Pid)
    requires SysOk(st, s) && StepCommit(s, p, s') && q in s.txns && q != p
    requires Inv(st, s'.origins, s'.rows)
    ensures TxnOk(st, s', q, s.txns[q])
  {
    hide Inv, TableOk, SysOk, WriteOk, PcOk;
    TheTxn(st, s, p);
    TheTxn(st, s, q);
    var x := s.txns[p];
    var y := s.txns[q];
    if Owner(x.pc).None? {
      EmptyCommit(st, s, p, s', q);
    } else if Owner(y.pc).None? {
      assert View(s'.rows, y.writes) == s'.rows;
      CommitKeepsIdle(s, s', y);
    } else {
      TxnOwnsWrites(st, s, p, x);
      TxnOwnsWrites(st, s, q, y);
      CommitDisturbs(s, x, y, Owner(x.pc).value);
      CommitKeepsOwner(st, s, p, s', q, Owner(x.pc).value, Owner(y.pc).value);
    }
  }

  lemma EmptyCommit(st: Settings, s: Sys, p: Pid, s': Sys, q: Pid)
    requires q in s.txns && q != p && TxnOk(st, s, q, s.txns[q])
    requires StepCommit(s, p, s') && s.txns[p].writes == map[]
    ensures TxnOk(st, s', q, s.txns[q])
  {
    hide Inv, TxnOk;
    assert View(s.rows, s.txns[p].writes) == s.rows;
    SameTxn(st, s, s', q, s.txns[q]);
  }

  lemma CommitKeepsIdle(s: Sys, s': Sys, y: Txn)
    requires Owner(y.pc).None? && y.writes == map[] && PcOk(s, y) && s'.origins == s.origins && s'.issued == s.issued
    ensures PcOk(s', y)
  {
  }

  lemma SameTxn(st: Settings, s: Sys, s': Sys, q: Pid, x: Txn)
    requires TxnOk(st, s, q, x)
    requires s'.rows == s.rows && s'.past == s.past && s'.known == s.known && s'.origins == s.origins
        && s'.issued == s.issued
    requires s'.nextId == s.nextId && s'.clock == s.clock
    requires forall b | b in s.locks && s.locks[b] == q :: b in s'.locks && s'.locks[b] == q
    ensures TxnOk(st, s', q, x)
  {
    hide Inv;
    forall j | j in x.writes ensures WriteOk(s', x, j) {
      assert WriteOk(s, x, j);
    }
  }

  lemma CommitKeepsOwner(st: Settings, s: Sys, p: Pid, s': Sys, q: Pid, u: int, v: int)
    requires p in s.txns && q in s.txns && q != p && StepCommit(s, p, s')
    requires TxnOk(st, s, q, s.txns[q]) && OwnWrites(s, s.txns[p]) && OwnWrites(s, s.txns[q])
    requires Owner(s.txns[p].pc) == Some(u) && Owner(s.txns[q].pc) == Some(v) && Bucket(u) != Bucket(v)
    requires Disturbed(s.rows, s'.rows, s.txns[p].writes, u)
    requires Disturbed(View(s.rows, s.txns[q].writes), View(s'.rows, s.txns[q].writes), s.txns[p].writes, u)
    requires s.txns[p].writes.Keys !! s.txns[q].writes.Keys
    requires Inv(st, s'.origins, s'.rows)
    ensures TxnOk(st, s', q, s.txns[q])
  {
    hide Inv, Disturbed, View, OwnWrites, WriteOk, PcOk, Settled;
    var x := s.txns[q];
    CommitKeepsSettled(st, s, p, s', q, u, v);
    forall j | j in x.writes ensures WriteOk(s', x, j) {
      CommitKeepsWrite(st, s, p, s', q, u, v, j);
    }
    WritesAreOf(s, s.txns[p], u);
    CommitKeepsPc(s, s.txns[p].writes, s', x, u, v);
  }

  lemma WritesAreOf(s: Sys, x: Txn, u: int)
    requires OwnWrites(s, x) && Owner(x.pc) == Some(u)
    ensures forall k | k in x.writes :: x.writes[k].family in s.origins && s.origins[x.writes[k].family].user == u
  {
  }

  lemma CommitKeepsSettled(st: Settings, s: Sys, p: Pid, s': Sys, q: Pid, u: int, v: int)
    requires p in s.txns && q in s.txns && StepCommit(s, p, s')
    requires TxnOk(st, s, q, s.txns[q]) && OwnWrites(s, s.txns[q])
    requires Owner(s.txns[q].pc) == Some(v) && Bucket(u) != Bucket(v)
    requires Disturbed(s.rows, s'.rows, s.txns[p].writes, u)
    requires Disturbed(View(s.rows, s.txns[q].writes), View(s'.rows, s.txns[q].writes), s.txns[p].writes, u)
    requires s.txns[p].writes.Keys !! s.txns[q].writes.Keys
    requires Inv(st, s'.origins, s'.rows)
    ensures Inv(st, s'.origins, Settled(s'.rows, s.txns[q]))
  {
    hide Inv, Splice, Disturbed, Settled, OwnWrites, WriteOk;
    var x := s.txns[q];
    CommitSplices(s, x, s.txns[p].writes, u, v);
    InvIsLocal(st, s.origins, Settled(s'.rows, x), s'.rows, Settled(s.rows, x), Bucket(v));
  }

  lemma CommitKeepsWrite(st: Settings, s: Sys, p: Pid, s': Sys, q: Pid, u: int, v: int, j: Jti)
    requires p in s.txns && q in s.txns && q != p && StepCommit(s, p, s')
    requires OwnWrites(s, s.txns[p]) && OwnWrites(s, s.txns[q])
    requires Owner(s.txns[p].pc) == Some(u) && Owner(s.txns[q].pc) == Some(v) && u != v
    requires Disturbed(s.rows, s'.rows, s.txns[p].writes, u)
    requires s.txns[p].writes.Keys !! s.txns[q].writes.Keys
    requires j in s.txns[q].writes && WriteOk(s, s.txns[q], j)
    ensures WriteOk(s', s.txns[q], j)
  {
    hide View;
    var x := s.txns[q];
    var w := s.txns[p].writes;
    var f := x.writes[j].family;
    assert forall k | k in w :: w[k].family != f;
    assert f in s'.known ==> f in s.known;
  }

  lemma CommitKeepsPc(s: Sys, w: Table, s': Sys, x: Txn, u: int, v: int)
    requires PcOk(s, x) && Owner(x.pc) == Some(v) && u != v && w.Keys !! x.writes.Keys
    requires forall k | k in w :: w[k].family in s.origins && s.origins[w[k].family].user == u
    requires Disturbed(s.rows, s'.rows, w, u)
    requires Disturbed(View(s.rows, x.writes), View(s'.rows, x.writes), w, u)
    requires s'.origins == s.origins && s'.issued == s.issued && s.known <= s'.known && s'.clock == s.clock
    ensures PcOk(s', x)
  {
    hide View;
  }

  lemma CommitKeepsTable(st: Settings, s: Sys, p: Pid, s': Sys)
    requires SysOk(st, s) && StepCommit(s, p, s')
    ensures TableOk(st, s')
  {
    hide Inv, SysOk;
    TheTxn(st, s, p);
    CommitStores(st, s, p, s');
    CommitOnce(st, s, p, s');
  }

  lemma CommitStores(st: Settings, s: Sys, p: Pid, s': Sys)
    requires p in s.txns && TableOk(st, s) && TxnOk(st, s, p, s.txns[p]) && StepCommit(s, p, s')
    ensures Inv(st, s'.origins, s'.rows)
    ensures forall j | j in s'.rows :: Stored(s', j, s'.rows[j]) && j in s'.past && s'.rows[j].family in s'.known
    ensures forall j | j in s.txns[p].writes :: j in s.issued && s.txns[p].writes[j].family in s.origins
  {
    hide Inv, PcOk;
    var x := s.txns[p];
    forall j | j in s'.rows ensures Stored(s', j, s'.rows[j]) && j in s'.past && s'.rows[j].family in s'.known {
      if j in x.writes { assert WriteOk(s, x, j); } else { assert Stored(s, j, s.rows[j]); }
    }
    forall j | j in x.writes ensures j in s.issued && x.writes[j].family in s.origins { assert WriteOk(s, x, j); }
  }

  /** No token's rotation is committed twice. */
  lemma CommitOnce(st: Settings, s: Sys, p: Pid, s': Sys)
    requires p in s.txns && TableOk(st, s) && TxnOk(st, s, p, s.txns[p]) && StepCommit(s, p, s')
    ensures forall i, k | 0 <= i < k < |s'.rotated| :: s'.rotated[i] != s'.rotated[k]
    ensures forall j | j in s'.rotated :: j in s'.past && (j in s'.rows ==> s'.rows[j].revokedAt.Some?)
  {
    hide Inv;
    var x := s.txns[p];
    forall j | j in x.writes ensures j !in s.rotated || (j in s.rows && s.rows[j].revokedAt.None?) {
      assert WriteOk(s, x, j);
    }
  }

  lemma CommitKeeps(st: Settings, s: Sys, p: Pid, s': Sys)
    requires SysOk(st, s) && StepCommit(s, p, s')
    ensures SysOk(st, s')
  {
    hide Inv, TableOk, TxnOk;
    CommitKeepsTable(st, s, p, s');
    forall q | q in s'.txns ensures TxnOk(st, s', q, s'.txns[q]) {
      assert Inv(st, s'.origins, s'.rows) by { TableInv(st, s'); }
      CommitKeepsOther(st, s, p, s', q);
    }
  }

  lemma TableInv(st: Settings, s: Sys)
    requires TableOk(st, s)
    ensures Inv(st, s.origins, s.rows)
  {
    hide Inv;
  }

  // ---------- Cleanup and the environment ----------

  lemma CleanupKeepsTxn(st: Settings, s: Sys, cutoff: Time, s': Sys, q: Pid, x: Txn)
    requires TxnOk(st, s, q, x) && Unaffected(s, x, cutoff) && s' == s.(rows := DeleteExpired(s.rows, cutoff))
    ensures TxnOk(st, s', q, x)
  {
    hide Inv, Settled, View, PcOk, WriteOk, Unaffected;
    CleanupView(s, cutoff, x);
    DeleteKeepsInv(st, s.origins, Settled(s.rows, x), cutoff);
    forall j | j in x.writes ensures WriteOk(s', x, j) {
      CleanupKeepsWrite(s, cutoff, s', x, j);
    }
    CleanupKeepsPc(s, cutoff, s', x);
  }

  lemma CleanupView(s: Sys, cutoff: Time, x: Txn)
    requires Unaffected(s, x, cutoff) && (x.pc.Inserted? ==> PcOk(s, x))
    ensures View(DeleteExpired(s.rows, cutoff), x.writes) == DeleteExpired(View(s.rows, x.writes), cutoff)
    ensures Settled(DeleteExpired(s.rows, cutoff), x) == DeleteExpired(Settled(s.rows, x), cutoff)
  {
    if x.pc.Inserted? { assert x.pc.row.jti in Pinned(x.pc) + x.writes.Keys; }
  }

  lemma CleanupKeepsWrite(s: Sys, cutoff: Time, s': Sys, x: Txn, j: Jti)
    requires Unaffected(s, x, cutoff) && s' == s.(rows := DeleteExpired(s.rows, cutoff))
    requires j in x.writes && WriteOk(s, x, j)
    ensures WriteOk(s', x, j)
  {
    assert j in Pinned(x.pc) + x.writes.Keys;
  }

  lemma CleanupKeepsPc(s: Sys, cutoff: Time, s': Sys, x: Txn)
    requires PcOk(s, x) && Unaffected(s, x, cutoff) && s' == s.(rows := DeleteExpired(s.rows, cutoff))
    requires View(s'.rows, x.writes) == DeleteExpired(View(s.rows, x.writes), cutoff)
    ensures PcOk(s', x)
  {
    hide View;
    assert forall j | j in Pinned(x.pc) + x.writes.Keys && j in s.rows :: j in s'.rows;
  }

  lemma CleanupKeeps(st: Settings, s: Sys, cutoff: Time, s': Sys)
    requires SysOk(st, s) && StepCleanup(s, cutoff, s')
    ensures SysOk(st, s')
  {
    hide Inv;
    DeleteKeepsInv(st, s.origins, s.rows, cutoff);
    forall j | j in s'.rows ensures Stored(s', j, s'.rows[j]) { assert Stored(s, j, s.rows[j]); }
    forall q | q in s'.txns ensures TxnOk(st, s', q, s'.txns[q]) {
      CleanupKeepsTxn(st, s, cutoff, s', q, s.txns[q]);
    }
  }

  lemma BeginKeeps(st: Settings, s: Sys, p: Pid, job: Job, s': Sys)
    requires SysOk(st, s) && Step(st, s, Begin(p, job), s')
    ensures SysOk(st, s')
  {
    hide Inv;
    assert View(s.rows, map[]) == s.rows;
    assert Quiet(s, s') && OnlyOf(s, s', p);
    QuietStep(st, s, s', p);
  }

  /** Every step keeps the invariant. */
  lemma StepKeeps(st: Settings, s: Sys, a: Action, s': Sys)
    requires SysOk(st, s) && Step(st, s, a, s')
    ensures SysOk(st, s')
  {
    hide SysOk, TableOk;
    match a
    case Tick(_) => EnvironmentKeeps(st, s, s');
    case SetUser(_, _) => EnvironmentKeeps(st, s, s');
    case Begin(p, job) => BeginKeeps(st, s, p, job, s');
    case ReadUser(p) => ReadUserKeeps(st, s, p, s');
    case TakeLock(p) => TakeLockKeeps(st, s, p, s');
    case ReadRow(p) => ReadRowKeeps(st, s, p, s');
    case Reject(p) => RejectKeeps(st, s, p, s');
    case InsertNext(p, next, secret) => InsertNextKeeps(st, s, p, next, secret, s');
    case MarkOld(p) => MarkOldKeeps(st, s, p, s');
    case CheckUser(p) => CheckUserKeeps(st, s, p, s');
    case OpenFamily(p, jti, secret, family) => OpenFamilyKeeps(st, s, p, jti, secret, family, s');
    case ListFamilies(p, listing) => ListFamiliesKeeps(st, s, p, listing, s');
    case RevokeNext(p) => RevokeNextKeeps(st, s, p, s');
    case Commit(p) => CommitKeeps(st, s, p, s');
    case Abort(p) => AbortKeeps(st, s, p, s');
    case Cleanup(cutoff) => CleanupKeeps(st, s, cutoff, s');
  }

  lemma EnvironmentKeeps(st: Settings, s: Sys, s': Sys)
    requires SysOk(st, s) && s.clock <= s'.clock && s' == s.(clock := s'.clock, enabled := s'.enabled)
    ensures SysOk(st, s')
  {
    hide Inv;
    QuietKeepsTable(st, s, s');
    forall q | q in s'.txns ensures TxnOk(st, s', q, s'.txns[q]) { QuietKeepsTxn(st, s, s', q, s.txns[q]); }
  }

  lemma AbortKeeps(st: Settings, s: Sys, p: Pid, s': Sys)
    requires SysOk(st, s) && p in s.txns && s' == Release(s, p)
    ensures SysOk(st, s')
  {
    hide Inv;
    assert Quiet(s, s') && OnlyOf(s, s', p);
    QuietStep(st, s, s', p);
  }
}
