/** What the holder of a token is told: how long a token that was handed out is accepted, and what is
    answered to the tokens of a family after reuse, logout, eviction, a change of password or a cleanup.
    The use cases run alone here, except in the last part, which is about whole runs. */
module RefreshAnswers {
  import opened Wrappers
  import opened RefreshTable
  import opened RefreshService
  import opened RefreshLaws
  import RC = RefreshConcurrent
  import RefreshRuns
  import RefreshRefines

  // ---------- Each answer ----------

  /** On stored rows the answers of a refresh come down to this: granted for an unrevoked, unexpired token
      with its secret, of an active user; reused for one that has been rotated, or whose family has been
      revoked for reuse; a failed login for an unrevoked, unexpired one of any other user. */
  lemma AnswersExactlyWhen(st: Settings, origins: map<Family, Origin>, t: Table, users: map<int, User>,
                           raw: RawToken, checked: Time)
    requires Inv(st, origins, t)
    ensures var answer, known := Answer(t, users, raw, checked),
                                 raw.Token? && raw.jti in t && t[raw.jti].secret == raw.secret;
      && (answer == None <==>
            && known && t[raw.jti].revokedAt.None? && checked < t[raw.jti].expiresAt
            && t[raw.jti].user in users && users[t[raw.jti].user].active)
      && (answer == Some(TokenReused) <==>
            known && (t[raw.jti].rotatedTo.Some? || t[raw.jti].reason == Some(ReuseDetected)))
      && (answer == Some(LoginFailed) <==>
            && known && t[raw.jti].revokedAt.None? && checked < t[raw.jti].expiresAt
            && (t[raw.jti].user in users ==> !users[t[raw.jti].user].active))
      && (answer.Some? ==> answer.value in {TokenInvalid, TokenReused, LoginFailed})
  {
    if raw.Token? && raw.jti in t { assert RowOk(st, origins, raw.jti, t[raw.jti]); }
  }

  /** What a granted refresh stores: the old row keeps everything but the marks of the rotation, and the new one
      carries on family, user and absolute limit. When the user turns out not to be active, the new row is stored
      all the same, and revoked at once. */
  lemma RenewalIsStored(st: Settings, origins: map<Family, Origin>, t: Table, users: map<int, User>, id: nat,
                        raw: RawToken, checked: Time, issued: Time, revoked: Time, draw: Draw)
    requires Inv(st, origins, t) && draw.jti !in t
    requires Answer(t, users, raw, checked) == None || Answer(t, users, raw, checked) == Some(LoginFailed)
    ensures var after := RowsAfterRefresh(st, t, users, id, raw, checked, issued, revoked, draw);
      var row, granted := t[raw.jti], Answer(t, users, raw, checked) == None;
      after == t[raw.jti := row.(rotatedTo := Some(draw.jti), revokedAt := Some(checked), reason := Some(Rotated),
                                 lastUsedAt := Some(checked))]
                [draw.jti := Row(id, draw.jti, row.family, row.user, draw.secret, None,
                                 if granted then None else Some(revoked), if granted then None else Some(LoggedOut),
                                 issued,
                                 if issued + st.idle <= row.absoluteAt then issued + st.idle else row.absoluteAt,
                                 row.absoluteAt, None)]
  {
    var after := RowsAfterRefresh(st, t, users, id, raw, checked, issued, revoked, draw);
    forall k | k in t && k != raw.jti ensures k in after && after[k] == t[k] {
      if t[k].family == t[raw.jti].family { OneLiveRow(st, origins, t, raw.jti, k); }
    }
  }

  // ---------- A token that was handed out ----------

  /** The token of a granted refresh is granted again for exactly as long as its answer said, while the
      user is active, and stays in the family. */
  method RefreshTwice(service: AuthService, raw: RawToken, checked: Time, issued: Time, draw: Draw,
                      checkedAgain: Time, issuedAgain: Time, drawAgain: Draw)
    returns (first: Response, second: Response)
    requires draw.jti !in service.repo.rows && drawAgain.jti !in service.repo.rows && draw.jti != drawAgain.jti
    modifies service.repo
    ensures first.Granted? ==>
      && first.refresh.Some?
      && (second.Granted? <==> checkedAgain < issued + first.refresh.value.expiresIn)
    ensures first.Granted? && second.Granted? ==>
      second.user == first.user && second.refresh.Some? && second.refresh.value.family == first.refresh.value.family
  {
    first := service.Refresh(raw, checked, issued, issued, draw);
    second := first;
    if first.Granted? {
      var token := first.refresh.value;
      second := service.Refresh(Token(token.jti, token.secret), checkedAgain, issuedAgain, issuedAgain, drawAgain);
    }
  }

  /** The token of a login is granted for exactly as long as the login said, if the user is active. */
  method LoginThenRefresh(service: AuthService, user: int, family: Family, now: Time, later: Time, draw: Draw,
                          checked: Time, issued: Time, drawAgain: Draw, ghost origins: map<Family, Origin>)
    returns (token: Issued, response: Response)
    requires service.st.Valid() && Inv(service.st, origins, service.repo.rows) && family !in origins
    requires draw.jti !in service.repo.rows && drawAgain.jti !in service.repo.rows && draw.jti != drawAgain.jti
    requires Before(service.repo.rows, user, service.repo.nextId, now)
    modifies service.repo
    ensures response.Granted? <==>
      checked < now + token.expiresIn && user in service.users && service.users[user].active
    ensures response.Granted? ==>
      response.user == user && response.refresh.Some? && response.refresh.value.family == family == token.family
    ensures user in service.users && !service.users[user].active && checked < now + token.expiresIn ==>
      response == Failed(LoginFailed)
  {
    ghost var t, id, listing := service.repo.rows, service.repo.nextId, [];
    token, listing := IssueLoginRefresh(service.repo, service.st, user, family, now, later, draw);
    LoginKeepsTheNewFamily(service.st, origins, t, id, user, family, draw, now, later, listing);
    hide Inv, Overflow, IsListing;
    response := service.Refresh(Token(token.jti, token.secret), checked, issued, issued, drawAgain);
  }

  /** The token of a change of password is granted for exactly as long as its answer said, if the user is
      still active. */
  method ChangeThenRefresh(service: AuthService, user: int, oldPassword: string, newPassword: string, now: Time,
                           openedAt: Time, family: Family, draw: Draw, checked: Time, issued: Time, drawAgain: Draw)
    returns (change: Response, response: Response)
    requires draw.jti !in service.repo.rows && drawAgain.jti !in service.repo.rows && draw.jti != drawAgain.jti
    modifies service`users, service.repo
    ensures change.Granted? && service.pepper ==>
      && change.refresh.Some?
      && (response.Granted? <==> checked < openedAt + change.refresh.value.expiresIn)
    ensures change.Granted? && service.pepper && response.Granted? ==>
      response.user == user && response.refresh.Some? && response.refresh.value.family == family
  {
    ghost var listing;
    change, listing := service.ChangePassword(user, oldPassword, newPassword, now, openedAt, family, draw);
    hide IsListing;
    response := change;
    if change.Granted? && service.pepper {
      var token := change.refresh.value;
      response := service.Refresh(Token(token.jti, token.secret), checked, issued, issued, drawAgain);
    }
  }

  // ---------- The tokens of a revoked family ----------

  /** What a revocation leaves in a row of one of the families, and what its token is told from then on. */
  lemma RevokedIsTold(st: Settings, origins: map<Family, Origin>, t: Table, fs: set<Family>, reason: Reason,
                      now: Time, users: map<int, User>, k: Jti, later: Time)
    requires Inv(st, origins, t) && reason != Rotated && k in t && t[k].family in fs && t[k].revokedAt.None?
    ensures var after := RevokeFamilies(t, fs, reason, now);
      && k in after && after[k] == t[k].(revokedAt := Some(now), reason := Some(reason))
      && Answer(after, users, Token(k, t[k].secret), later)
         == Some(if reason == ReuseDetected then TokenReused else TokenInvalid)
  {
    assert RowOk(st, origins, k, t[k]);
  }

  /** Once one of its tokens has been presented again, every token of a family, those that had been
      rotated and the one that was still good, is answered with TOKEN_REUSED at any time, as long as its row is
      stored; all but tokens that had been revoked for another reason before. */
  lemma ReuseIsToldToTheFamily(st: Settings, origins: map<Family, Origin>, t: Table, users: map<int, User>, id: nat,
                               raw: RawToken, checked: Time, issued: Time, revoked: Time, draw: Draw,
                               k: Jti, users': map<int, User>, later: Time)
    requires Inv(st, origins, t) && draw.jti !in t && Answer(t, users, raw, checked) == Some(TokenReused)
    requires k in t && t[k].family == t[raw.jti].family
    ensures var after := RowsAfterRefresh(st, t, users, id, raw, checked, issued, revoked, draw);
      && after.Keys == t.Keys
      && after[k] == (if t[k].revokedAt.None?
                      then t[k].(revokedAt := Some(checked), reason := Some(ReuseDetected)) else t[k])
      && Answer(after, users', Token(k, t[k].secret), later)
         == Some(if t[k].rotatedTo.Some? || t[k].revokedAt.None? || t[k].reason == Some(ReuseDetected)
                 then TokenReused else TokenInvalid)
  {
    assert RowOk(st, origins, k, t[k]);
  }

  /** After a logout the family's good token is told that it is invalid, not that it was reused. */
  lemma LogoutIsTold(st: Settings, origins: map<Family, Origin>, t: Table, raw: RawToken, now: Time,
                     k: Jti, users: map<int, User>, later: Time)
    requires Inv(st, origins, t) && raw.Token? && raw.jti in t && t[raw.jti].secret == raw.secret
    requires k in t && t[k].family == t[raw.jti].family && t[k].revokedAt.None?
    ensures var after := RowsAfterLogout(t, raw, now);
      && k in after && after[k] == t[k].(revokedAt := Some(now), reason := Some(LoggedOut))
      && Answer(after, users, Token(k, t[k].secret), later) == Some(TokenInvalid)
  {
    RevokedIsTold(st, origins, t, {t[raw.jti].family}, LoggedOut, now, users, k, later);
    hide RevokeFamilies, Answer;
  }

  /** So is that of a session beyond the limit after a login. */
  lemma EvictionIsTold(st: Settings, origins: map<Family, Origin>, t: Table, user: int, now: Time,
                       listing: seq<Family>, i: nat, k: Jti, users: map<int, User>, later: Time)
    requires Inv(st, origins, t) && st.maxSessions <= i < |listing|
    requires k in t && t[k].family == listing[i] && t[k].revokedAt.None?
    ensures var after := RevokeFamilies(t, ToSet(Overflow(st, listing)), ConcurrencyLimit, now);
      && k in after && after[k] == t[k].(revokedAt := Some(now), reason := Some(ConcurrencyLimit))
      && Answer(after, users, Token(k, t[k].secret), later) == Some(TokenInvalid)
  {
    assert Overflow(st, listing)[i - st.maxSessions] == listing[i];
    RevokedIsTold(st, origins, t, ToSet(Overflow(st, listing)), ConcurrencyLimit, now, users, k, later);
    hide RevokeFamilies, Answer;
  }

  /** And that of every listed session after a change of password, which may happen with the new family
      already stored. */
  lemma ChangeIsTold(st: Settings, origins: map<Family, Origin>, t: Table, id: nat, user: int, family: Family,
                     draw: Draw, now: Time, issued: Time, listing: seq<Family>, k: Jti, users: map<int, User>,
                     later: Time)
    requires Inv(st, origins, t) && draw.jti !in t
    requires k in t && t[k].family in listing && t[k].revokedAt.None?
    ensures var after := RowsAfterIssue(st, RevokeFamilies(t, ToSet(listing), PasswordChanged, now), id, user, family,
                                        draw, issued);
      && k in after && after[k] == t[k].(revokedAt := Some(now), reason := Some(PasswordChanged))
      && Answer(after, users, Token(k, t[k].secret), later) == Some(TokenInvalid)
  {
    RevokedIsTold(st, origins, t, ToSet(listing), PasswordChanged, now, users, k, later);
    hide RevokeFamilies, NewRow;
  }

  /** A stolen token that is presented after it has been rotated costs the thief and the owner the session, and the
      owner's good token is answered with TOKEN_REUSED too. */
  method StolenTokenIsReported(service: AuthService, owner: RawToken, checked: Time, issued: Time, draw: Draw,
                               stolenAt: Time, lastAt: Time, other: Draw)
    returns (first: Response, second: Response, third: Response)
    requires draw.jti !in service.repo.rows && other.jti !in service.repo.rows && draw.jti != other.jti
    modifies service.repo
    ensures first.Granted? ==> second == Failed(TokenReused) && third == Failed(TokenReused)
  {
    first := service.Refresh(owner, checked, issued, issued, draw);
    second, third := first, first;
    if first.Granted? {
      var token := first.refresh.value;
      second := service.Refresh(owner, stolenAt, stolenAt, stolenAt, other);
      third := service.Refresh(Token(token.jti, token.secret), lastAt, lastAt, lastAt, other);
    }
  }

  // ---------- Who is not concerned ----------

  /** A token that is unknown, or presented with a wrong secret, is invalid and has no effect. */
  lemma WrongSecretHasNoEffect(st: Settings, t: Table, users: map<int, User>, id: nat, raw: RawToken,
                               checked: Time, issued: Time, revoked: Time, draw: Draw)
    requires draw.jti !in t
    requires raw.Token? && raw.jti in t ==> t[raw.jti].secret != raw.secret
    ensures Answer(t, users, raw, checked) == Some(TokenInvalid)
    ensures RowsAfterRefresh(st, t, users, id, raw, checked, issued, revoked, draw) == t
    ensures RowsAfterLogout(t, raw, revoked) == t
  {
  }

  /** A refresh and a logout leave the rows of every other family alone. */
  lemma OtherFamiliesStay(st: Settings, t: Table, users: map<int, User>, id: nat, raw: RawToken,
                          checked: Time, issued: Time, revoked: Time, draw: Draw, k: Jti)
    requires draw.jti !in t && raw.Token? && raw.jti in t && k in t && t[k].family != t[raw.jti].family
    ensures var after := RowsAfterRefresh(st, t, users, id, raw, checked, issued, revoked, draw);
      k in after && after[k] == t[k]
    ensures var after := RowsAfterLogout(t, raw, revoked); k in after && after[k] == t[k]
  {
  }

  /** A login and a change of password leave the rows of every other user alone. */
  lemma OtherUsersStay(st: Settings, origins: map<Family, Origin>, t: Table, user: int, now: Time,
                       listing: seq<Family>, reason: Reason, k: Jti)
    requires Inv(st, origins, t) && IsListing(t, user, now, listing) && k in t && t[k].user != user
    ensures RevokeFamilies(t, ToSet(listing), reason, now)[k] == t[k]
    ensures RevokeFamilies(t, ToSet(Overflow(st, listing)), reason, now)[k] == t[k]
  {
    ListedIsTheUsers(st, origins, t, user, now, listing, k);
    hide Inv, IsListing;
  }

  lemma ListedIsTheUsers(st: Settings, origins: map<Family, Origin>, t: Table, user: int, now: Time,
                         listing: seq<Family>, k: Jti)
    requires Inv(st, origins, t) && IsListing(t, user, now, listing) && k in t
    ensures t[k].family in listing ==> t[k].user == user
    ensures t[k].family in Overflow(st, listing) ==> t[k].family in listing
  {
    if t[k].family in listing {
      assert t[k].family in ActiveFamilies(t, user, now);
      var j :| j in t && Active(t[j], user, now) && t[j].family == t[k].family;
      assert RowOk(st, origins, j, t[j]) && RowOk(st, origins, k, t[k]);
    }
  }

  /** A cleanup removes exactly the rows that had expired by its cutoff. With a cutoff that is not in the future
      no token is granted that was not, or the other way round; the tokens it removed are told that they are invalid,
      and the others what they were told before. */
  lemma CleanupIsNotTold(st: Settings, origins: map<Family, Origin>, t: Table, users: map<int, User>, cutoff: Time,
                         raw: RawToken, checked: Time)
    requires Inv(st, origins, t)
    ensures var after := DeleteExpired(t, cutoff);
      && (forall j :: j in after <==> j in t && cutoff < t[j].expiresAt)
      && Answer(after, users, raw, checked)
         == (if raw.Token? && raw.jti in t && t[raw.jti].expiresAt <= cutoff then Some(TokenInvalid)
             else Answer(t, users, raw, checked))
      && (cutoff <= checked ==> (Answer(after, users, raw, checked).None? <==> Answer(t, users, raw, checked).None?))
  {
    AnswersExactlyWhen(st, origins, t, users, raw, checked);
  }

  // ---------- Over whole runs ----------

  lemma {:induction false} AllBelow(s: set<nat>) returns (n: nat)
    ensures forall x | x in s :: x < n
    decreases s
  {
    n := 0;
    if s != {} {
      var x :| x in s;
      n := AllBelow(s - {x});
      if n <= x { n := x + 1; }
      assert s == (s - {x}) + {x};
    }
  }

  /** What the commit of a reported reuse does to a row that is still good. */
  lemma ReuseMarks(st: Settings, t: Table, t': Table, plan: RefreshRefines.Plan, o: Option<int>, from: Jti, j: Jti)
    requires j in t && t[j].revokedAt.None? && Dead(t', t[j].family)
    requires RefreshRefines.ActsAs(st, t, t', plan, o, RC.Reused(from, t[j].family))
    ensures j in t' && t'[j] == t[j].(revokedAt := Some(plan.job.checked), reason := Some(ReuseDetected))
  {
    var raw, checked := Token(plan.job.jti, plan.job.secret), plan.job.checked;
    var d := AllBelow(t.Keys);
    var one, two := Draw(d, 0), Draw(d + 1, 0);
    assert one.jti !in t && two.jti !in t;
    assert t' == RowsAfterRefresh(st, t, map[], 0, raw, checked, 0, 0, one);
    assert t' == RowsAfterRefresh(st, t, map[], 0, raw, checked, 0, 0, two);
    RenewalAddsItsToken(st, t, raw, checked, one);
    RenewalAddsItsToken(st, t, raw, checked, two);
  }

  lemma RenewalAddsItsToken(st: Settings, t: Table, raw: RawToken, checked: Time, draw: Draw)
    requires draw.jti !in t
    ensures var after := RowsAfterRefresh(st, t, map[], 0, raw, checked, 0, 0, draw);
      && after.Keys <= t.Keys + {draw.jti}
      && (draw.jti in after <==> Presented(t, raw) && Renewable(t[raw.jti], checked))
  {
  }

  lemma MarkedAtCommit(st: Settings, states: seq<RC.Sys>, acts: seq<RC.Action>, i: nat, p: RC.Pid, from: Jti, j: Jti)
    requires RefreshRuns.IsRun(st, states, acts) && i < |acts| && acts[i] == RC.Commit(p)
    requires j in states[i].rows && states[i].rows[j].revokedAt.None?
    requires p in states[i].txns && states[i].txns[p].pc.Finished?
    requires states[i].txns[p].pc.result == RC.Reused(from, states[i].rows[j].family)
    ensures j in states[i + 1].rows && states[i + 1].rows[j].revokedAt.Some?
    ensures states[i + 1].rows[j] == states[i].rows[j].(revokedAt := states[i + 1].rows[j].revokedAt,
                                                        reason := Some(ReuseDetected))
  {
    hide RefreshRefines.ActsAs, RC.Step, RC.Init;
    RefreshRuns.RefusalIsFinal(st, states, acts, i, i + 1, p, states[i].rows[j].family);
    RefreshRefines.EveryCommitIsItsUseCase(st, states, acts, i, p);
    hide *;
    ReuseMarks(st, states[i].rows, states[i + 1].rows, RefreshRefines.PlansAt(states, acts, i)[p],
               states[i].txns[p].pc.owner, from, j);
  }

  lemma MarksStay(s: RC.Sys, s': RC.Sys, j: Jti)
    requires RefreshRuns.Evolves(s, s') && j in s.rows && s.rows[j].revokedAt.Some?
    ensures j in s'.rows ==> s'.rows[j] == s.rows[j]
  {
  }

  /** Once a transaction has committed that reported a reuse, the token that was good until then carries the
      mark in every later state that still stores it. */
  lemma ReuseIsRemembered(st: Settings, states: seq<RC.Sys>, acts: seq<RC.Action>, i: nat, k: nat, p: RC.Pid,
                          from: Jti, j: Jti)
    requires RefreshRuns.IsRun(st, states, acts) && i < k < |states| && acts[i] == RC.Commit(p)
    requires j in states[i].rows && states[i].rows[j].revokedAt.None? && j in states[k].rows
    requires p in states[i].txns && states[i].txns[p].pc.Finished?
    requires states[i].txns[p].pc.result == RC.Reused(from, states[i].rows[j].family)
    ensures states[k].rows[j].revokedAt.Some?
    ensures states[k].rows[j] == states[i].rows[j].(revokedAt := states[k].rows[j].revokedAt,
                                                    reason := Some(ReuseDetected))
  {
    MarkedAtCommit(st, states, acts, i, p, from, j);
    RefreshRuns.RunEvolves(st, states, acts, i + 1, k);
    MarksStay(states[i + 1], states[k], j);
    hide *;
  }

  /** So a refresh with that token, whatever clock reading it took, is reported as reuse as well. */
  lemma GoodTokenIsReportedToo(st: Settings, states: seq<RC.Sys>, acts: seq<RC.Action>, i: nat, k: nat, p: RC.Pid,
                               from: Jti, j: Jti, q: RC.Pid)
    requires RefreshRuns.IsRun(st, states, acts) && i < k < |acts| && acts[i] == RC.Commit(p)
    requires j in states[i].rows && states[i].rows[j].revokedAt.None? && j in states[k].rows
    requires p in states[i].txns && states[i].txns[p].pc.Finished?
    requires states[i].txns[p].pc.result == RC.Reused(from, states[i].rows[j].family)
    requires acts[k] == RC.Reject(q) && q in states[k].txns && states[k].txns[q].pc.Checked?
    requires states[k].txns[q].pc.job.Refresh? && states[k].txns[q].pc.job.jti == j
    ensures q in states[k + 1].txns && states[k + 1].txns[q].pc.Finished?
    ensures states[k + 1].txns[q].pc.result == RC.Reused(j, states[i].rows[j].family)
  {
    assert RC.Step(st, states[k], acts[k], states[k + 1]);
    assert RC.StepReject(states[k], q, states[k + 1]);
    hide RC.Step, RC.StepReject, RC.Init, RC.SysOk;
    ReuseIsRemembered(st, states, acts, i, k, p, from, j);
    RefreshRuns.Reachable(st, states, acts, k);
    hide RefreshRuns.IsRun;
    RejectedIsReported(st, states[k], q, states[k + 1], j);
  }

  lemma RejectedIsReported(st: Settings, s: RC.Sys, q: RC.Pid, s': RC.Sys, j: Jti)
    requires RC.SysOk(st, s) && RC.StepReject(s, q, s')
    requires j in s.rows && s.rows[j].reason == Some(ReuseDetected)
    requires s.txns[q].pc.job.Refresh? && s.txns[q].pc.job.jti == j
    ensures q in s'.txns && s'.txns[q].pc.Finished? && s'.txns[q].pc.result == RC.Reused(j, s.rows[j].family)
  {
    hide Inv, RC.RevokeIn;
    assert RC.TxnOk(st, s, q, s.txns[q]);
  }
}
