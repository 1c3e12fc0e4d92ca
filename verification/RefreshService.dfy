/** Token issue, rotation, reuse detection and revocation as the source runs them: a repository
    object over the stored rows, and the use cases that call it step by step.

    A clock reading, a fresh uuid and a fresh secret are arguments; where one use case reads the
    clock twice it takes two readings. The per-user lock is modelled in RefreshConcurrent: here a
    use case runs alone. */
module RefreshService {
  import opened Wrappers
  import opened RefreshTable

  // `parse_refresh_token`: either not of the form rt_<uuid>.<secret>, or its two parts.
  datatype RawToken = Malformed | Token(jti: Jti, secret: nat)

  datatype Draw = Draw(jti: Jti, secret: nat)

  datatype Issued = Issued(jti: Jti, secret: nat, expiresIn: int, family: Family)

  datatype AuthError = TokenInvalid | TokenReused | LoginFailed | PasswordIncorrect | PasswordTooWeak

  datatype Rotation = Refused(error: AuthError) | Renewed(token: Issued, user: int)

  datatype User = User(name: string, active: bool, password: string)

  datatype Response = Failed(error: AuthError) | Granted(user: int, refresh: Option<Issued>)

  // ---------- What each use case does to the rows ----------

  predicate Presented(rows: Table, raw: RawToken) {
    raw.Token? && raw.jti in rows && rows[raw.jti].secret == raw.secret
  }

  predicate IsReuse(r: Row) { r.rotatedTo.Some? || r.reason == Some(ReuseDetected) }

  predicate Renewable(r: Row, now: Time) {
    !IsReuse(r) && r.revokedAt.None? && r.expiresAt > now && now < r.absoluteAt
  }

  /** The rows after `rotate_refresh_token`: `checked` is the reading taken on entry, `issued` the
      one taken when the successor is made. */
  function RowsAfterRotate(st: Settings, rows: Table, id: nat, raw: RawToken, checked: Time, issued: Time,
      draw: Draw): Table
    requires draw.jti !in rows
  {
    if !Presented(rows, raw) then rows
    else if IsReuse(rows[raw.jti]) then RevokeFamilies(rows, {rows[raw.jti].family}, ReuseDetected, checked)
    else if Renewable(rows[raw.jti], checked) then Rotate(st, rows, raw.jti, id, draw.jti, draw.secret, checked, issued)
    else rows
  }

  function RowsAfterLogout(rows: Table, raw: RawToken, now: Time): Table {
    if Presented(rows, raw) then RevokeFamilies(rows, {rows[raw.jti].family}, LoggedOut, now) else rows
  }

  predicate IsActive(users: map<int, User>, user: int) { user in users && users[user].active }

  /** The rows after `refresh`: a rotation, undone in effect when its user is gone or disabled. */
  function RowsAfterRefresh(st: Settings, rows: Table, users: map<int, User>, id: nat, raw: RawToken,
                            checked: Time, issued: Time, revoked: Time, draw: Draw): Table
    requires draw.jti !in rows
  {
    var t := RowsAfterRotate(st, rows, id, raw, checked, issued, draw);
    if Presented(rows, raw) && Renewable(rows[raw.jti], checked) && !IsActive(users, rows[raw.jti].user)
    then RevokeFamilies(t, {rows[raw.jti].family}, LoggedOut, revoked) else t
  }

  /** Why `refresh` refuses the token, None when it grants it. */
  function Answer(rows: Table, users: map<int, User>, raw: RawToken, checked: Time): Option<AuthError> {
    if !Presented(rows, raw) then Some(TokenInvalid)
    else if IsReuse(rows[raw.jti]) then Some(TokenReused)
    else if !Renewable(rows[raw.jti], checked) then Some(TokenInvalid)
    else if !IsActive(users, rows[raw.jti].user) then Some(LoginFailed)
    else None
  }

  function RowsAfterIssue(st: Settings, rows: Table, id: nat, user: int, family: Family, draw: Draw, now: Time): Table {
    rows[draw.jti := NewRow(st, id, draw.jti, family, user, draw.secret, now, now + st.absolute)]
  }

  function Overflow(st: Settings, listing: seq<Family>): seq<Family> {
    if |listing| <= st.maxSessions then [] else listing[st.maxSessions..]
  }

  // ---------- The repository ----------

  class RefreshTokenRepository {
    var rows: Table
    var nextId: nat

    constructor ()
      ensures rows == map[] && nextId == 0
    {
      rows, nextId := map[], 0;
    }

    method Create(jti: Jti, family: Family, user: int, secret: nat, issuedAt: Time, expiresAt: Time, absoluteAt: Time)
      requires jti !in rows
      modifies this
      ensures rows == old(rows)[jti := Row(old(nextId), jti, family, user, secret, None, None, None,
                                           issuedAt, expiresAt, absoluteAt, None)]
      ensures nextId == old(nextId) + 1
    {
      rows := rows[jti := Row(nextId, jti, family, user, secret, None, None, None, issuedAt, expiresAt, absoluteAt,
          None)];
      nextId := nextId + 1;
    }

    method MarkAsRotated(jti: Jti, next: Jti, now: Time)
      requires jti in rows
      modifies this`rows
      ensures rows == MarkRotated(old(rows), jti, next, now)
      ensures rows == old(rows)[jti := old(rows)[jti].(rotatedTo := Some(next), revokedAt := Some(now),
                                                       reason := Some(Rotated), lastUsedAt := Some(now))]
    {
      var row := rows[jti];
      row := row.(rotatedTo := Some(next));
      row := row.(revokedAt := Some(now));
      row := row.(reason := Some(Rotated));
      row := row.(lastUsedAt := Some(now));
      rows := rows[jti := row];
    }

    /** Returns the number of rows the UPDATE changed. */
    method RevokeFamily(family: Family, reason: Reason, now: Time) returns (count: nat)
      modifies this`rows
      ensures rows == RevokeFamilies(old(rows), {family}, reason, now)
      ensures rows.Keys == old(rows.Keys) && forall j | j in rows ::
                rows[j] == if old(rows)[j].family == family && old(rows)[j].revokedAt.None?
                           then old(rows)[j].(revokedAt := Some(now), reason := Some(reason)) else old(rows)[j]
      ensures count == |set j | j in old(rows) && old(rows)[j].family == family && old(rows)[j].revokedAt.None?|
    {
      var hit := set j | j in rows && rows[j].family == family && rows[j].revokedAt.None?;
      rows := map j | j in rows ::
        if j in hit then rows[j].(revokedAt := Some(now), reason := Some(reason)) else rows[j];
      count := |hit|;
    }

    /** Groups the active rows by family, then takes the groups in descending order. */
    method ListActiveFamilies(user: int, now: Time) returns (l: seq<Family>)
      ensures IsListing(rows, user, now, l)
    {
      hide IsRecency, IsListing, ActiveFamilies;
      var recent := GroupByFamily(user, now);
      l := [];
      ghost var all := recent;
      while recent.Keys != {}
        invariant recent.Keys <= all.Keys && forall f | f in recent :: recent[f] == all[f]
        invariant forall f :: f in l <==> f in all && f !in recent
        invariant forall i, k | 0 <= i < k < |l| :: l[i] != l[k] && AtLeast(all[l[i]], all[l[k]])
        invariant forall f, g | f in l && g in recent :: AtLeast(all[f], all[g])
        decreases recent.Keys
      {
        var f := Greatest(recent);
        l := l + [f];
        recent := recent - {f};
      }
      SortedIsListing(rows, user, now, all, l);
    }

    method GroupByFamily(user: int, now: Time) returns (recent: map<Family, (Time, nat)>)
      ensures recent.Keys == ActiveFamilies(rows, user, now)
      ensures forall f | f in recent :: IsRecency(rows, user, now, f, recent[f])
    {
      recent := map[];
      var todo := rows.Keys;
      while todo != {}
        invariant todo <= rows.Keys
        invariant recent.Keys == ActiveFamilies(rows - todo, user, now)
        invariant forall f | f in recent :: IsRecency(rows - todo, user, now, f, recent[f])
      {
        var j :| j in todo;
        ghost var seen := rows - todo;
        var r := rows[j];
        todo := todo - {j};
        GroupOneMore(seen, rows - todo, user, now, j, recent);
        if Active(r, user, now) {
          recent := recent[r.family := Raise(recent, r)];
        }
      }
      assert rows - todo == rows;
    }
  }

  function Raise(recent: map<Family, (Time, nat)>, r: Row): (Time, nat) {
    if r.family !in recent then (r.issuedAt, r.id) else
      var k := recent[r.family];
      (if k.0 < r.issuedAt then r.issuedAt else k.0, if k.1 < r.id then r.id else k.1)
  }

  lemma SortedIsListing(t: Table, user: int, now: Time, all: map<Family, (Time, nat)>, l: seq<Family>)
    requires all.Keys == ActiveFamilies(t, user, now) && forall f | f in all :: IsRecency(t, user, now, f, all[f])
    requires forall f :: f in l <==> f in all
    requires forall i, k | 0 <= i < k < |l| :: l[i] != l[k] && AtLeast(all[l[i]], all[l[k]])
    ensures IsListing(t, user, now, l)
  {
    hide ActiveFamilies;
    forall i, k, a, b | 0 <= i < k < |l| && IsRecency(t, user, now, l[i], a) && IsRecency(t, user, now, l[k], b)
      ensures AtLeast(a, b)
    {
      RecencyIsUnique(t, user, now, l[i], a, all[l[i]]);
      RecencyIsUnique(t, user, now, l[k], b, all[l[k]]);
    }
  }

  lemma GroupOneMore(seen: Table, t: Table, user: int, now: Time, j: Jti, recent: map<Family, (Time, nat)>)
    requires j !in seen && j in t && t == seen[j := t[j]]
    requires recent.Keys == ActiveFamilies(seen, user, now)
    requires forall f | f in recent :: IsRecency(seen, user, now, f, recent[f])
    ensures ActiveFamilies(t, user, now)
         == ActiveFamilies(seen, user, now) + if Active(t[j], user, now) then {t[j].family} else {}
    ensures forall f | f in recent && (f != t[j].family || !Active(t[j], user, now)) :: IsRecency(t, user, now, f,
        recent[f])
    ensures Active(t[j], user, now) ==> IsRecency(t, user, now, t[j].family, Raise(recent, t[j]))
  {
    var r := t[j];
    OneMoreFamily(seen, t, user, now, j);
    forall f | f in recent && (f != r.family || !Active(r, user, now)) ensures IsRecency(t, user, now, f, recent[f]) {
      KeepRecency(seen, t, user, now, f, recent[f]);
    }
    if Active(r, user, now) { RaisedRecency(seen, t, user, now, j, recent); }
    hide IsRecency, ActiveFamilies, Raise;
  }

  lemma OneMoreFamily(seen: Table, t: Table, user: int, now: Time, j: Jti)
    requires j !in seen && j in t && t == seen[j := t[j]]
    ensures ActiveFamilies(t, user, now)
         == ActiveFamilies(seen, user, now) + if Active(t[j], user, now) then {t[j].family} else {}
  {
    forall f | f in ActiveFamilies(seen, user, now) ensures f in ActiveFamilies(t, user, now) {
      var k :| k in seen && Active(seen[k], user, now) && seen[k].family == f;
      assert k in t && t[k] == seen[k];
    }
  }

  lemma RaisedRecency(seen: Table, t: Table, user: int, now: Time, j: Jti, recent: map<Family, (Time, nat)>)
    requires j !in seen && j in t && t == seen[j := t[j]] && Active(t[j], user, now)
    requires recent.Keys == ActiveFamilies(seen, user, now)
    requires forall f | f in recent :: IsRecency(seen, user, now, f, recent[f])
    ensures IsRecency(t, user, now, t[j].family, Raise(recent, t[j]))
  {
    var f := t[j].family;
    if f in recent {
      KeepWitnesses(seen, t, user, now, f, recent[f]);
      assert IsRecency(seen, user, now, f, recent[f]);
    }
  }

  lemma KeepWitnesses(seen: Table, t: Table, user: int, now: Time, f: Family, key: (Time, nat))
    requires forall k | k in seen :: k in t && t[k] == seen[k]
    requires IsRecency(seen, user, now, f, key)
    ensures exists j :: j in t && t[j].family == f && Active(t[j], user, now) && t[j].issuedAt == key.0
    ensures exists j :: j in t && t[j].family == f && Active(t[j], user, now) && t[j].id == key.1
  {
    var a :| a in seen && seen[a].family == f && Active(seen[a], user, now) && seen[a].issuedAt == key.0;
    var b :| b in seen && seen[b].family == f && Active(seen[b], user, now) && seen[b].id == key.1;
    assert a in t && b in t;
  }

  lemma KeepRecency(seen: Table, t: Table, user: int, now: Time, f: Family, key: (Time, nat))
    requires forall k | k in seen :: k in t && t[k] == seen[k]
    requires forall k | k in t && k !in seen :: t[k].family != f || !Active(t[k], user, now)
    requires IsRecency(seen, user, now, f, key)
    ensures IsRecency(t, user, now, f, key)
  {
    KeepWitnesses(seen, t, user, now, f, key);
  }

  lemma RecencyIsUnique(t: Table, user: int, now: Time, f: Family, a: (Time, nat), b: (Time, nat))
    requires IsRecency(t, user, now, f, a) && IsRecency(t, user, now, f, b)
    ensures a == b
  {
  }

  method Greatest(m: map<Family, (Time, nat)>) returns (f: Family)
    requires m.Keys != {}
    ensures f in m && forall g | g in m :: AtLeast(m[f], m[g])
  {
    f :| f in m;
    var todo := m.Keys - {f};
    while todo != {}
      invariant todo <= m.Keys && f in m
      invariant forall g | g in m && g !in todo :: AtLeast(m[f], m[g])
    {
      var g :| g in todo;
      todo := todo - {g};
      if !AtLeast(m[f], m[g]) { f := g; }
    }
  }

  lemma RevokeNone(t: Table, reason: Reason, now: Time)
    ensures RevokeFamilies(t, {}, reason, now) == t && RevokeFamilies(t, ToSet([]), reason, now) == t
  {
    assert ToSet<Family>([]) == {};
  }

  /** Families revoked one after the other, at one time, are revoked together. */
  lemma RevokeOneMore(t: Table, fs: set<Family>, f: Family, reason: Reason, now: Time)
    ensures RevokeFamilies(RevokeFamilies(t, fs, reason, now), {f}, reason, now)
         == RevokeFamilies(t, fs + {f}, reason, now)
  {
  }

  // ---------- The use cases ----------

  method IssueRefreshToken(repo: RefreshTokenRepository, st: Settings, user: int, familyId: Option<Family>,
                           freshFamily: Family, familyAbsoluteAt: Option<Time>, now: Time, draw: Draw)
    returns (r: Issued)
    requires draw.jti !in repo.rows
    modifies repo
    ensures var family := if familyId.Some? then familyId.value else freshFamily;
            var absoluteAt := if familyAbsoluteAt.Some? then familyAbsoluteAt.value else now + st.absolute;
            var lifetime := if st.idle <= absoluteAt - now then st.idle else absoluteAt - now;
            && repo.rows == old(repo.rows)[draw.jti := Row(old(repo.nextId), draw.jti, family, user, draw.secret,
                                                           None, None, None, now, now + lifetime, absoluteAt, None)]
            && r == Issued(draw.jti, draw.secret, lifetime, family)
    ensures familyId.None? && familyAbsoluteAt.None? ==>
              repo.rows == RowsAfterIssue(st, old(repo.rows), old(repo.nextId), user, freshFamily, draw, now)
    ensures repo.nextId == old(repo.nextId) + 1
  {
    var family := if familyId.Some? then familyId.value else freshFamily;
    var familyAbsolute := if familyAbsoluteAt.Some? then familyAbsoluteAt.value else now + st.absolute;
    var idleExpires := now + st.idle;
    var expiresAt := Min(idleExpires, familyAbsolute);
    repo.Create(draw.jti, family, user, draw.secret, now, expiresAt, familyAbsolute);
    r := Issued(draw.jti, draw.secret, expiresAt - now, family);
  }

  method EnforceConcurrencyLimit(repo: RefreshTokenRepository, st: Settings, user: int,
      now: Time) returns (ghost listing: seq<Family>)
    modifies repo`rows
    ensures IsListing(old(repo.rows), user, now, listing)
    ensures repo.rows == RevokeFamilies(old(repo.rows), ToSet(Overflow(st, listing)), ConcurrencyLimit, now)
  {
    hide RevokeFamilies, IsListing;
    var families := repo.ListActiveFamilies(user, now);
    listing := families;
    RevokeNone(repo.rows, ConcurrencyLimit, now);
    var overflow := Overflow(st, families);
    assert overflow[..0] == [];
    var i := 0;
    while i < |overflow|
      invariant 0 <= i <= |overflow|
      invariant repo.rows == RevokeFamilies(old(repo.rows), ToSet(overflow[..i]), ConcurrencyLimit, now)
    {
      var _ := repo.RevokeFamily(overflow[i], ConcurrencyLimit, now);
      RevokeOneMore(old(repo.rows), ToSet(overflow[..i]), overflow[i], ConcurrencyLimit, now);
      assert ToSet(overflow[..i + 1]) == ToSet(overflow[..i]) + {overflow[i]};
      i := i + 1;
    }
    assert overflow[..i] == overflow;
  }

  method IssueLoginRefresh(repo: RefreshTokenRepository, st: Settings, user: int, freshFamily: Family, now: Time,
      later: Time, draw: Draw)
    returns (r: Issued, ghost listing: seq<Family>)
    requires draw.jti !in repo.rows
    modifies repo
    ensures r == Issued(draw.jti, draw.secret, if st.idle <= st.absolute then st.idle else st.absolute, freshFamily)
    ensures repo.nextId == old(repo.nextId) + 1
    ensures var t := RowsAfterIssue(st, old(repo.rows), old(repo.nextId), user, freshFamily, draw, now);
            IsListing(t, user, later, listing)
            && repo.rows == RevokeFamilies(t, ToSet(Overflow(st, listing)), ConcurrencyLimit, later)
  {
    r := IssueRefreshToken(repo, st, user, None, freshFamily, None, now, draw);
    listing := EnforceConcurrencyLimit(repo, st, user, later);
  }

  method RotateRefreshToken(repo: RefreshTokenRepository, st: Settings, raw: RawToken, checked: Time, issued: Time,
      draw: Draw)
    returns (r: Rotation)
    requires draw.jti !in repo.rows
    modifies repo
    ensures repo.rows == RowsAfterRotate(st, old(repo.rows), old(repo.nextId), raw, checked, issued, draw)
    ensures r.Renewed? <==> Presented(old(repo.rows), raw) && Renewable(old(repo.rows)[raw.jti], checked)
    ensures r == Refused(TokenReused) <==> Presented(old(repo.rows), raw) && IsReuse(old(repo.rows)[raw.jti])
    ensures r.Refused? ==> r.error == TokenInvalid || r.error == TokenReused
    ensures r.Renewed? ==>
              var row := old(repo.rows)[raw.jti];
              var left := row.absoluteAt - issued;
              && r.user == row.user
              && r.token == Issued(draw.jti, draw.secret, if st.idle <= left then st.idle else left, row.family)
    ensures repo.nextId == old(repo.nextId) + if r.Renewed? then 1 else 0
  {
    if raw.Malformed? { return Refused(TokenInvalid); }
    if raw.jti !in repo.rows { return Refused(TokenInvalid); }
    var row := repo.rows[raw.jti];
    if row.secret != raw.secret { return Refused(TokenInvalid); }
    if row.rotatedTo.Some? || row.reason == Some(ReuseDetected) {
      var _ := repo.RevokeFamily(row.family, ReuseDetected, checked);
      return Refused(TokenReused);
    }
    if row.revokedAt.Some? || row.expiresAt <= checked { return Refused(TokenInvalid); }
    if checked >= row.absoluteAt { return Refused(TokenInvalid); }
    var token := IssueRefreshToken(repo, st, row.user, Some(row.family), 0, Some(row.absoluteAt), issued, draw);
    repo.MarkAsRotated(raw.jti, token.jti, checked);
    r := Renewed(token, row.user);
  }

  method RevokeRefreshToken(repo: RefreshTokenRepository, raw: RawToken, now: Time) returns (done: bool)
    modifies repo`rows
    ensures done <==> Presented(old(repo.rows), raw)
    ensures repo.rows == RowsAfterLogout(old(repo.rows), raw, now)
  {
    if raw.Malformed? { return false; }
    if raw.jti !in repo.rows { return false; }
    var row := repo.rows[raw.jti];
    if row.secret != raw.secret { return false; }
    var _ := repo.RevokeFamily(row.family, LoggedOut, now);
    done := true;
  }

  /** The part of a password change that is done only when refresh tokens are configured. */
  method ReplaceAllSessions(repo: RefreshTokenRepository, st: Settings, user: int, now: Time, issued: Time,
      freshFamily: Family, draw: Draw)
    returns (token: Issued, ghost listing: seq<Family>)
    requires draw.jti !in repo.rows
    modifies repo
    ensures IsListing(old(repo.rows), user, now, listing)
    ensures repo.rows == RowsAfterIssue(st, RevokeFamilies(old(repo.rows), ToSet(listing), PasswordChanged, now),
                                        old(repo.nextId), user, freshFamily, draw, issued)
    ensures token == Issued(draw.jti, draw.secret, if st.idle <= st.absolute then st.idle else st.absolute,
                            freshFamily)
    ensures repo.nextId == old(repo.nextId) + 1
  {
    hide RevokeFamilies, RowsAfterIssue, IsListing;
    var families := repo.ListActiveFamilies(user, now);
    listing := families;
    RevokeNone(repo.rows, PasswordChanged, now);
    assert families[..0] == [];
    var i := 0;
    while i < |families|
      invariant 0 <= i <= |families|
      invariant repo.rows == RevokeFamilies(old(repo.rows), ToSet(families[..i]), PasswordChanged, now)
      invariant repo.rows.Keys == old(repo.rows.Keys)
      invariant repo.nextId == old(repo.nextId)
    {
      var _ := repo.RevokeFamily(families[i], PasswordChanged, now);
      RevokeOneMore(old(repo.rows), ToSet(families[..i]), families[i], PasswordChanged, now);
      assert ToSet(families[..i + 1]) == ToSet(families[..i]) + {families[i]};
      i := i + 1;
    }
    assert families[..i] == families;
    token := IssueRefreshToken(repo, st, user, None, freshFamily, None, issued, draw);
  }

  class AuthService {
    const repo: RefreshTokenRepository
    const st: Settings
    const pepper: bool          // whether refresh tokens are configured
    var users: map<int, User>

    constructor (repo: RefreshTokenRepository, st: Settings, pepper: bool, users: map<int, User>)
      ensures this.repo == repo && this.st == st && this.pepper == pepper && this.users == users
    {
      this.repo, this.st, this.pepper, this.users := repo, st, pepper, users;
    }

    /** The error is kept until the transaction has committed, so that a revocation made on the
        way to refusing the token is stored. */
    method Refresh(raw: RawToken, checked: Time, issued: Time, revoked: Time, draw: Draw) returns (r: Response)
      requires draw.jti !in repo.rows
      modifies repo
      ensures repo.rows == RowsAfterRefresh(st, old(repo.rows), users, old(repo.nextId), raw, checked, issued,
          revoked, draw)
      ensures var error := Answer(old(repo.rows), users, raw, checked);
              (r.Granted? <==> error.None?) && (r.Failed? ==> Some(r.error) == error)
      ensures r.Granted? ==>
                var row := old(repo.rows)[raw.jti];
                var left := row.absoluteAt - issued;
                && r.user == row.user
                && r.refresh == Some(Issued(draw.jti, draw.secret, if st.idle <= left then st.idle else left,
                                            row.family))
    {
      var deferred: Option<AuthError> := None;
      var response: Option<Response> := None;
      var result := RotateRefreshToken(repo, st, raw, checked, issued, draw);
      if result.Refused? {
        deferred := Some(result.error);
      } else if result.user !in users || !users[result.user].active {
        var _ := RevokeRefreshToken(repo, raw, revoked);
        deferred := Some(LoginFailed);
      } else {
        response := Some(Granted(result.user, Some(result.token)));
      }
      if deferred.Some? { return Failed(deferred.value); }
      r := response.value;
    }

    method Logout(raw: RawToken, now: Time)
      modifies repo`rows
      ensures repo.rows == RowsAfterLogout(old(repo.rows), raw, now)
    {
      var _ := RevokeRefreshToken(repo, raw, now);
    }

    method ChangePassword(user: int, oldPassword: string, newPassword: string, now: Time, issued: Time,
        freshFamily: Family, draw: Draw)
      returns (r: Response, ghost listing: seq<Family>)
      requires draw.jti !in repo.rows
      modifies this`users, repo
      ensures r == Failed(LoginFailed) <==> user !in old(users) || !old(users)[user].active
      ensures r == Failed(PasswordIncorrect) <==>
                user in old(users) && old(users)[user].active && old(users)[user].password != oldPassword
      ensures r == Failed(PasswordTooWeak) <==>
                && user in old(users) && old(users)[user].active && old(users)[user].password == oldPassword
                && (newPassword == old(users)[user].name || newPassword == oldPassword)
      ensures r.Failed? ==> r.error in {LoginFailed, PasswordIncorrect, PasswordTooWeak}
      ensures r.Failed? ==> users == old(users) && repo.rows == old(repo.rows) && repo.nextId == old(repo.nextId)
      ensures r.Granted? ==> users == old(users)[user := old(users)[user].(password := newPassword)] && r.user == user
      ensures r.Granted? && !pepper ==> repo.rows == old(repo.rows) && r.refresh == None
      ensures r.Granted? && pepper ==>
                && IsListing(old(repo.rows), user, now, listing)
                && repo.rows == RowsAfterIssue(st, RevokeFamilies(old(repo.rows), ToSet(listing), PasswordChanged, now),
                                               old(repo.nextId), user, freshFamily, draw, issued)
                && r.refresh == Some(Issued(draw.jti, draw.secret,
                                            if st.idle <= st.absolute then st.idle else st.absolute, freshFamily))
    {
      listing := [];
      if user !in users || !users[user].active { return Failed(LoginFailed), listing; }
      var u := users[user];
      if u.password != oldPassword { return Failed(PasswordIncorrect), listing; }
      if newPassword == u.name { return Failed(PasswordTooWeak), listing; }
      if newPassword == oldPassword { return Failed(PasswordTooWeak), listing; }
      users := users[user := u.(password := newPassword)];
      if !pepper { return Granted(user, None), listing; }
      var token;
      token, listing := ReplaceAllSessions(repo, st, user, now, issued, freshFamily, draw);
      r := Granted(user, Some(token));
    }
  }
}
