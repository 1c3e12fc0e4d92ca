/** The table `auth_refresh_tokens`: its rows, the SQL statements that change it, and the
    invariant that every one of them keeps.

    A uuid is a number; a token's secret stands for its hash, so that a secret verifies exactly
    for the token it was issued with. Clock readings are whole seconds. */
module RefreshTable {
  import opened Wrappers

  type Jti = nat
  type Family = nat
  type Time = int

  datatype Reason = Rotated | LoggedOut | ReuseDetected | ConcurrencyLimit | PasswordChanged

  datatype Row = Row(
    id: nat, jti: Jti, family: Family, user: int, secret: nat,
    rotatedTo: Option<Jti>, revokedAt: Option<Time>, reason: Option<Reason>,
    issuedAt: Time, expiresAt: Time, absoluteAt: Time, lastUsedAt: Option<Time>)

  type Table = map<Jti, Row>

  datatype Settings = Settings(idle: nat, absolute: nat, maxSessions: nat) {
    predicate Valid() { idle >= 300 && absolute >= 300 && maxSessions >= 1 }
  }

  // Who logged in to open a family, and when.
  datatype Origin = Origin(user: int, born: Time)

  // ---------- The statements ----------

  function Min(a: Time, b: Time): Time { if a <= b then a else b }

  /** The row that `issue_refresh_token` stores. */
  function NewRow(st: Settings, id: nat, jti: Jti, family: Family, user: int, secret: nat,
                  now: Time, absoluteAt: Time): Row
  {
    Row(id, jti, family, user, secret, None, None, None,
        now, Min(now + st.idle, absoluteAt), absoluteAt, None)
  }

  function Revoked(r: Row, reason: Reason, now: Time): Row {
    r.(revokedAt := Some(now), reason := Some(reason))
  }

  function MarkedRotated(r: Row, next: Jti, now: Time): Row {
    r.(rotatedTo := Some(next), revokedAt := Some(now), reason := Some(Rotated), lastUsedAt := Some(now))
  }

  /** UPDATE ... WHERE family_id IN fs AND revoked_at IS NULL, for all the families at once. */
  function RevokeFamilies(t: Table, fs: set<Family>, reason: Reason, now: Time): Table {
    map j | j in t :: if t[j].family in fs && t[j].revokedAt.None? then Revoked(t[j], reason, now) else t[j]
  }

  function MarkRotated(t: Table, j: Jti, next: Jti, now: Time): Table
    requires j in t
  {
    t[j := MarkedRotated(t[j], next, now)]
  }

  function DeleteExpired(t: Table, cutoff: Time): Table {
    map j | j in t && t[j].expiresAt > cutoff :: t[j]
  }

  /** A row that still carries its session: not revoked and not expired. */
  predicate Active(r: Row, user: int, now: Time) {
    r.user == user && r.revokedAt.None? && r.expiresAt > now
  }

  function ActiveFamilies(t: Table, user: int, now: Time): set<Family> {
    set j | j in t && Active(t[j], user, now) :: t[j].family
  }

  /** No row of the family is unrevoked. */
  ghost predicate Dead(t: Table, f: Family) {
    forall j | j in t && t[j].family == f :: t[j].revokedAt.Some?
  }

  // ---------- The invariant ----------

  ghost predicate RowOk(st: Settings, origins: map<Family, Origin>, j: Jti, r: Row) {
    && r.jti == j
    && r.family in origins
    && r.user == origins[r.family].user
    && r.absoluteAt == origins[r.family].born + st.absolute
    && r.expiresAt == Min(r.issuedAt + st.idle, r.absoluteAt)
    && (r.rotatedTo.Some? <==> r.reason == Some(Rotated))
    && (r.revokedAt.Some? <==> r.reason.Some?)
  }

  /** A rotated row's successor is present, in the same family, and was issued later. */
  ghost predicate LinkOk(t: Table, r: Row) {
    r.rotatedTo.Some? ==>
      && r.rotatedTo.value in t
      && t[r.rotatedTo.value].family == r.family
      && r.id < t[r.rotatedTo.value].id
      && r.issuedAt <= t[r.rotatedTo.value].issuedAt
  }

  /** Ids tell the rows of a user apart, and between a row and a later one of its family stands
      the row's successor (or the later one is that successor). */
  ghost predicate OrderOk(t: Table, a: Row, b: Row) {
    && (a.user == b.user && a.id == b.id ==> a.jti == b.jti)
    && (a.family == b.family && a.id < b.id ==>
          && a.rotatedTo.Some?
          && a.rotatedTo.value in t
          && t[a.rotatedTo.value].id <= b.id)
  }

  ghost predicate Inv(st: Settings, origins: map<Family, Origin>, t: Table) {
    && (forall j | j in t :: RowOk(st, origins, j, t[j]) && LinkOk(t, t[j]))
    && (forall j, k | j in t && k in t :: OrderOk(t, t[j], t[k]))
  }

  /** At most one row of a family is unrevoked, and it is the family's last. */
  lemma OneLiveRow(st: Settings, origins: map<Family, Origin>, t: Table, j: Jti, k: Jti)
    requires Inv(st, origins, t)
    requires j in t && k in t && t[j].family == t[k].family
    requires t[j].revokedAt.None?
    ensures t[k].id <= t[j].id
    ensures t[k].revokedAt.None? ==> j == k
  {
    assert OrderOk(t, t[j], t[k]);
    assert OrderOk(t, t[k], t[j]);
    assert RowOk(st, origins, j, t[j]);
    assert RowOk(st, origins, k, t[k]);
  }

  // ---------- Every statement keeps the invariant ----------

  /** Numbers and times still to come: a new row is numbered above every stored row of its user
      and issued no earlier than any of them. */
  ghost predicate Before(t: Table, user: int, id: nat, now: Time) {
    forall j | j in t && t[j].user == user :: t[j].id < id && t[j].issuedAt <= now
  }

  lemma NewFamilyKeepsInv(st: Settings, origins: map<Family, Origin>, t: Table, id: nat, jti: Jti,
                          family: Family, user: int, secret: nat, now: Time)
    requires Inv(st, origins, t)
    requires jti !in t && family !in origins && Before(t, user, id, now)
    ensures Inv(st, origins[family := Origin(user, now)],
                t[jti := NewRow(st, id, jti, family, user, secret, now, now + st.absolute)])
  {
    var origins' := origins[family := Origin(user, now)];
    var t' := t[jti := NewRow(st, id, jti, family, user, secret, now, now + st.absolute)];
    forall j | j in t' ensures RowOk(st, origins', j, t'[j]) && LinkOk(t', t'[j]) {
      if j != jti { assert RowOk(st, origins, j, t[j]) && LinkOk(t, t[j]); }
    }
    forall j, k | j in t' && k in t' ensures OrderOk(t', t'[j], t'[k]) {
      if j != jti { assert RowOk(st, origins, j, t[j]) && LinkOk(t, t[j]); }
      if k != jti { assert RowOk(st, origins, k, t[k]); }
      if j != jti && k != jti { assert OrderOk(t, t[j], t[k]); }
    }
  }

  /** The two statements of a rotation: INSERT of the successor, then the mark on the old row. */
  function Rotate(st: Settings, t: Table, j: Jti, id: nat, next: Jti, secret: nat, checked: Time, issued: Time): Table
    requires j in t && next != j
  {
    MarkRotated(t[next := NewRow(st, id, next, t[j].family, t[j].user, secret, issued, t[j].absoluteAt)],
                j, next, checked)
  }

  lemma RotateKeepsInv(st: Settings, origins: map<Family, Origin>, t: Table, j: Jti, id: nat, next: Jti,
                       secret: nat, checked: Time, issued: Time)
    requires Inv(st, origins, t)
    requires j in t && t[j].revokedAt.None? && next !in t && Before(t, t[j].user, id, issued)
    ensures Inv(st, origins, Rotate(st, t, j, id, next, secret, checked, issued))
  {
    var t' := Rotate(st, t, j, id, next, secret, checked, issued);
    assert RowOk(st, origins, j, t[j]);
    forall k | k in t' ensures RowOk(st, origins, k, t'[k]) && LinkOk(t', t'[k]) {
      if k != next { assert RowOk(st, origins, k, t[k]) && LinkOk(t, t[k]); }
    }
    forall k, l | k in t' && l in t' ensures OrderOk(t', t'[k], t'[l]) {
      if k != next {
        assert RowOk(st, origins, k, t[k]) && LinkOk(t, t[k]);
        if t[k].family == t[j].family { OneLiveRow(st, origins, t, j, k); assert OrderOk(t, t[k], t[j]); }
      }
      if l != next { assert RowOk(st, origins, l, t[l]); }
      if k != next && l != next { assert OrderOk(t, t[k], t[l]); }
    }
  }

  lemma RevokeKeepsInv(st: Settings, origins: map<Family, Origin>, t: Table, fs: set<Family>, reason: Reason, now: Time)
    requires Inv(st, origins, t) && reason != Rotated
    ensures Inv(st, origins, RevokeFamilies(t, fs, reason, now))
  {
    var t' := RevokeFamilies(t, fs, reason, now);
    forall j | j in t' ensures RowOk(st, origins, j, t'[j]) && LinkOk(t', t'[j]) {
      assert RowOk(st, origins, j, t[j]) && LinkOk(t, t[j]);
    }
    forall j, k | j in t' && k in t' ensures OrderOk(t', t'[j], t'[k]) {
      assert OrderOk(t, t[j], t[k]);
    }
  }

  /** Expiries never decrease along a rotation edge, so the rows a cleanup removes are the front
      of each path: no row that stays points at one that went. */
  lemma DeleteKeepsInv(st: Settings, origins: map<Family, Origin>, t: Table, cutoff: Time)
    requires Inv(st, origins, t)
    ensures Inv(st, origins, DeleteExpired(t, cutoff))
    ensures forall j | j in t && t[j].rotatedTo.Some? ::
              t[j].rotatedTo.value in t && t[j].expiresAt <= t[t[j].rotatedTo.value].expiresAt
  {
    var t' := DeleteExpired(t, cutoff);
    forall j | j in t
      ensures t[j].rotatedTo.Some? ==>
                t[j].rotatedTo.value in t && t[j].expiresAt <= t[t[j].rotatedTo.value].expiresAt
    {
      assert RowOk(st, origins, j, t[j]) && LinkOk(t, t[j]);
      if t[j].rotatedTo.Some? { assert RowOk(st, origins, t[j].rotatedTo.value, t[t[j].rotatedTo.value]); }
    }
    forall j | j in t' ensures RowOk(st, origins, j, t'[j]) && LinkOk(t', t'[j]) {
      assert RowOk(st, origins, j, t[j]) && LinkOk(t, t[j]);
    }
    forall j, k | j in t' && k in t' ensures OrderOk(t', t'[j], t'[k]) {
      assert OrderOk(t, t[j], t[k]);
      assert LinkOk(t, t[j]);
    }
  }

  // ---------- The shape of a family ----------

  /** The rotation path that starts at row j. */
  ghost function PathFrom(st: Settings, origins: map<Family, Origin>, t: Table, j: Jti): seq<Jti>
    requires Inv(st, origins, t) && j in t
    decreases Later(t, t[j].id)
  {
    if t[j].rotatedTo.None? then [j] else
      assert LinkOk(t, t[j]);
      var n := t[j].rotatedTo.value;
      LaterShrinks(t, j, n);
      [j] + PathFrom(st, origins, t, n)
  }

  ghost function Later(t: Table, id: nat): set<Jti> { set k | k in t && t[k].id > id }

  lemma LaterShrinks(t: Table, j: Jti, n: Jti)
    requires j in t && n in t && t[j].id < t[n].id
    ensures Later(t, t[n].id) < Later(t, t[j].id)
  {
    assert n in Later(t, t[j].id) && n !in Later(t, t[n].id);
  }

  /** The rows of a family are one simple path of rotations: read from the family's first row it
      visits each of them once, in order of issue, and every step is a rotation. */
  lemma {:induction false} PathCoversFamily(st: Settings, origins: map<Family, Origin>, t: Table, j: Jti)
    requires Inv(st, origins, t) && j in t
    ensures var p := PathFrom(st, origins, t, j);
      && (forall k :: k in p <==> k in t && t[k].family == t[j].family && t[k].id >= t[j].id)
      && (forall i, m | 0 <= i < m < |p| :: p[i] in t && p[m] in t && t[p[i]].id < t[p[m]].id)
      && (forall i | 0 <= i < |p| - 1 :: p[i] in t && t[p[i]].rotatedTo == Some(p[i + 1]))
    decreases Later(t, t[j].id)
  {
    assert RowOk(st, origins, j, t[j]) && LinkOk(t, t[j]);
    forall k | k in t && t[k].family == t[j].family && t[k].id >= t[j].id
      ensures k == j || (t[j].rotatedTo.Some? && t[j].rotatedTo.value in t && t[t[j].rotatedTo.value].id <= t[k].id)
    {
      assert RowOk(st, origins, k, t[k]);
      assert OrderOk(t, t[j], t[k]);
    }
    if t[j].rotatedTo.Some? {
      var n := t[j].rotatedTo.value;
      LaterShrinks(t, j, n);
      PathCoversFamily(st, origins, t, n);
      var q := PathFrom(st, origins, t, n);
      assert PathFrom(st, origins, t, j) == [j] + q;
      assert q[0] == n;
    }
  }

  /** Every expiry and the family's absolute limit are tied to the login that opened it, and a row that
      is not used expires when it has been idle for too long. */
  lemma NoRowOutlivesItsLogin(st: Settings, origins: map<Family, Origin>, t: Table, j: Jti)
    requires Inv(st, origins, t) && j in t
    ensures t[j].family in origins
    ensures t[j].expiresAt <= t[j].absoluteAt == origins[t[j].family].born + st.absolute
    ensures t[j].expiresAt <= t[j].issuedAt + st.idle
    ensures t[j].expiresAt == t[j].issuedAt + st.idle || t[j].expiresAt == t[j].absoluteAt
  {
    assert RowOk(st, origins, j, t[j]);
  }

  // ---------- Active families, most recent first ----------

  /** `(max(issued_at), max(id))` over the active rows of a family. */
  ghost predicate IsRecency(t: Table, user: int, now: Time, f: Family, key: (Time, nat)) {
    && (forall j | j in t && t[j].family == f && Active(t[j], user, now) :: t[j].issuedAt <= key.0 && t[j].id <= key.1)
    && (exists j :: j in t && t[j].family == f && Active(t[j], user, now) && t[j].issuedAt == key.0)
    && (exists j :: j in t && t[j].family == f && Active(t[j], user, now) && t[j].id == key.1)
  }

  predicate AtLeast(a: (Time, nat), b: (Time, nat)) { a.0 > b.0 || (a.0 == b.0 && a.1 >= b.1) }

  /** The answer of `list_active_families`: each active family once, in descending order of recency. */
  ghost predicate IsListing(t: Table, user: int, now: Time, l: seq<Family>) {
    && (forall f :: f in l <==> f in ActiveFamilies(t, user, now))
    && (forall i, k | 0 <= i < k < |l| :: l[i] != l[k])
    && (forall i, k, a, b | 0 <= i < k < |l| && IsRecency(t, user, now, l[i], a) && IsRecency(t, user, now, l[k], b) ::
          AtLeast(a, b))
  }

  function ToSet<T>(s: seq<T>): set<T> { set x | x in s }

  lemma ToSetSize<T>(s: seq<T>)
    ensures |ToSet(s)| <= |s|
  {
    if s != [] {
      assert ToSet(s) == ToSet(s[1..]) + {s[0]};
      ToSetSize(s[1..]);
    }
  }
}
