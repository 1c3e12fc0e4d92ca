/** What the use cases of RefreshService promise, each run to its end on a table that satisfies the
    invariant. `checked` is the clock read before the user lock is taken and `issued` the one read
    after it, so any number of other use cases may have run between the two. */
module RefreshLaws {
  import opened Wrappers
  import opened RefreshTable
  import opened RefreshService

  // ---------- Rotation ----------

  /** Which tokens a rotation accepts. On stored rows the separate tests for the absolute limit and
      for a recorded reuse never decide: an expiry is never above the limit, and a reused family has
      no unrevoked row. */
  lemma RenewableExactlyWhenLive(st: Settings, origins: map<Family, Origin>, t: Table, j: Jti, now: Time)
    requires Inv(st, origins, t) && j in t
    ensures Renewable(t[j], now) <==> t[j].revokedAt.None? && t[j].expiresAt > now
  {
    assert RowOk(st, origins, j, t[j]);
  }

  lemma RefreshKeepsInv(st: Settings, origins: map<Family, Origin>, t: Table, users: map<int, User>, id: nat,
                        raw: RawToken, checked: Time, issued: Time, revoked: Time, draw: Draw)
    requires Inv(st, origins, t) && draw.jti !in t
    requires Presented(t, raw) ==> Before(t, t[raw.jti].user, id, issued)
    ensures Inv(st, origins, RowsAfterRefresh(st, t, users, id, raw, checked, issued, revoked, draw))
  {
    if Presented(t, raw) {
      var f := t[raw.jti].family;
      if IsReuse(t[raw.jti]) {
        RevokeKeepsInv(st, origins, t, {f}, ReuseDetected, checked);
      } else if Renewable(t[raw.jti], checked) {
        RotateKeepsInv(st, origins, t, raw.jti, id, draw.jti, draw.secret, checked, issued);
        RevokeKeepsInv(st, origins, RowsAfterRotate(st, t, id, raw, checked, issued, draw), {f}, LoggedOut, revoked);
      }
    }
  }

  /** Reuse of a rotated token, a logout, and the refusal of a disabled user each leave the whole
      family without an unrevoked row, and change no row that was already revoked. */
  lemma RefusalEndsTheFamily(st: Settings, t: Table, users: map<int, User>, id: nat, raw: RawToken,
                             checked: Time, issued: Time, revoked: Time, draw: Draw)
    requires draw.jti !in t && Presented(t, raw)
    ensures Dead(RowsAfterLogout(t, raw, revoked), t[raw.jti].family)
    ensures IsReuse(t[raw.jti]) || (Renewable(t[raw.jti], checked) && !IsActive(users, t[raw.jti].user)) ==>
              Dead(RowsAfterRefresh(st, t, users, id, raw, checked, issued, revoked, draw), t[raw.jti].family)
    ensures var after := RowsAfterRefresh(st, t, users, id, raw, checked, issued, revoked, draw);
            forall k | k in t :: k in after && (t[k].revokedAt.Some? ==> after[k] == t[k])
    ensures var after := RowsAfterLogout(t, raw, revoked);
            forall k | k in t :: k in after && (t[k].revokedAt.Some? ==> after[k] == t[k])
  {
  }

  /** A rotation leaves the set of active families as it was exactly when the presented row is still
      unexpired at the second clock reading, or the successor is born expired; otherwise it adds the
      family back. */
  lemma RotationKeepsActiveFamiliesExactlyWhenPrompt(
      st: Settings, origins: map<Family, Origin>, t: Table, j: Jti, id: nat, draw: Draw, checked: Time, issued: Time)
    requires st.Valid() && Inv(st, origins, t) && draw.jti !in t && j in t && Renewable(t[j], checked)
    ensures var after := Rotate(st, t, j, id, draw.jti, draw.secret, checked, issued);
            var user := t[j].user;
            && (ActiveFamilies(after, user, issued) == ActiveFamilies(t, user, issued)
                <==> t[j].expiresAt > issued || t[j].absoluteAt <= issued)
            && (t[j].absoluteAt > issued ==>
                  ActiveFamilies(after, user, issued) == ActiveFamilies(t, user, issued) + {t[j].family})
  {
    var after := Rotate(st, t, j, id, draw.jti, draw.secret, checked, issued);
    var user := t[j].user;
    assert RowOk(st, origins, j, t[j]);
    forall f | f in ActiveFamilies(t, user, issued) && f != t[j].family
      ensures f in ActiveFamilies(after, user, issued)
    {
      var k :| k in t && Active(t[k], user, issued) && t[k].family == f;
      assert k in after && after[k] == t[k];
    }
    forall f | f in ActiveFamilies(after, user, issued) && f != t[j].family
      ensures f in ActiveFamilies(t, user, issued)
    {
      var k :| k in after && Active(after[k], user, issued) && after[k].family == f;
      assert k in t && after[k] == t[k];
    }
    var n := after[draw.jti];
    assert n.expiresAt > issued <==> t[j].absoluteAt > issued;
    assert Active(n, user, issued) ==> t[j].family in ActiveFamilies(after, user, issued);
    assert t[j].family in ActiveFamilies(t, user, issued) <==> t[j].expiresAt > issued by {
      if t[j].family in ActiveFamilies(t, user, issued) {
        var k :| k in t && Active(t[k], user, issued) && t[k].family == t[j].family;
        OneLiveRow(st, origins, t, j, k);
      }
      assert Active(t[j], user, issued) ==> t[j].family in ActiveFamilies(t, user, issued);
    }
    assert t[j].family in ActiveFamilies(after, user, issued) <==> t[j].absoluteAt > issued by {
      if t[j].family in ActiveFamilies(after, user, issued) {
        var k :| k in after && Active(after[k], user, issued) && after[k].family == t[j].family;
        if k != draw.jti { OneLiveRow(st, origins, t, j, k); }
      }
    }
  }

  // ---------- Login ----------

  lemma LoginKeepsInv(st: Settings, origins: map<Family, Origin>, t: Table, id: nat, user: int, family: Family,
                      draw: Draw, now: Time, later: Time, listing: seq<Family>)
    requires Inv(st, origins, t) && draw.jti !in t && family !in origins && Before(t, user, id, now)
    ensures Inv(st, origins[family := Origin(user, now)],
                RevokeFamilies(RowsAfterIssue(st, t, id, user, family, draw, now), ToSet(Overflow(st, listing)),
                    ConcurrencyLimit, later))
  {
    NewFamilyKeepsInv(st, origins, t, id, draw.jti, family, user, draw.secret, now);
    RevokeKeepsInv(st, origins[family := Origin(user, now)], RowsAfterIssue(st, t, id, user, family, draw, now),
                   ToSet(Overflow(st, listing)), ConcurrencyLimit, later);
  }

  /** On stored rows a family's recency is the pair (issued_at, id) of its one active row. */
  lemma RecencyOfLiveRow(st: Settings, origins: map<Family, Origin>, t: Table, user: int, now: Time, j: Jti)
    requires Inv(st, origins, t) && j in t && Active(t[j], user, now)
    ensures IsRecency(t, user, now, t[j].family, (t[j].issuedAt, t[j].id))
  {
    forall k | k in t && t[k].family == t[j].family && Active(t[k], user, now) ensures k == j {
      OneLiveRow(st, origins, t, j, k);
    }
  }

  /** A login never revokes the family it has just opened. */
  lemma LoginKeepsTheNewFamily(st: Settings, origins: map<Family, Origin>, t: Table, id: nat, user: int, family: Family,
                               draw: Draw, now: Time, later: Time, listing: seq<Family>)
    requires st.Valid() && Inv(st, origins, t) && draw.jti !in t && family !in origins && Before(t, user, id, now)
    requires IsListing(RowsAfterIssue(st, t, id, user, family, draw, now), user, later, listing)
    ensures family !in Overflow(st, listing)
    ensures later < now + Min(st.idle, st.absolute) ==> listing != [] && listing[0] == family
  {
    var t' := RowsAfterIssue(st, t, id, user, family, draw, now);
    var origins' := origins[family := Origin(user, now)];
    NewFamilyKeepsInv(st, origins, t, id, draw.jti, family, user, draw.secret, now);
    if later < now + Min(st.idle, st.absolute) {
      assert Active(t'[draw.jti], user, later);
      assert family in ActiveFamilies(t', user, later);
    }
    if family in listing {
      OnlyTheNewRow(st, origins, t, id, user, family, draw, now, later);
      hide Inv, RowsAfterIssue;
      NewestComesFirst(st, origins', t', user, later, listing, draw.jti);
      FirstIsKept(st, listing);
    }
  }

  lemma OnlyTheNewRow(st: Settings, origins: map<Family, Origin>, t: Table, id: nat, user: int, family: Family,
                      draw: Draw, now: Time, later: Time)
    requires Inv(st, origins, t) && draw.jti !in t && family !in origins
    requires family in ActiveFamilies(RowsAfterIssue(st, t, id, user, family, draw, now), user, later)
    ensures Active(RowsAfterIssue(st, t, id, user, family, draw, now)[draw.jti], user, later)
  {
    var t' := RowsAfterIssue(st, t, id, user, family, draw, now);
    var k :| k in t' && Active(t'[k], user, later) && t'[k].family == family;
    assert k != draw.jti ==> RowOk(st, origins, k, t[k]);
  }

  lemma NewestComesFirst(st: Settings, origins: map<Family, Origin>, t: Table, user: int, now: Time,
      listing: seq<Family>, j: Jti)
    requires Inv(st, origins, t) && IsListing(t, user, now, listing)
    requires j in t && Active(t[j], user, now)
    requires forall k | k in t && k != j && t[k].user == user :: t[k].id < t[j].id && t[k].issuedAt <= t[j].issuedAt
    ensures listing != [] && listing[0] == t[j].family
  {
    assert t[j].family in ActiveFamilies(t, user, now);
    var i :| 0 <= i < |listing| && listing[i] == t[j].family;
    assert listing[0] in ActiveFamilies(t, user, now);
    var m :| m in t && Active(t[m], user, now) && t[m].family == listing[0];
    RecencyOfLiveRow(st, origins, t, user, now, j);
    RecencyOfLiveRow(st, origins, t, user, now, m);
    if i == 0 { OneLiveRow(st, origins, t, j, m); }
    assert AtLeast((t[m].issuedAt, t[m].id), (t[j].issuedAt, t[j].id));
  }

  lemma FirstIsKept(st: Settings, listing: seq<Family>)
    requires st.maxSessions >= 1 && listing != [] && forall i, k | 0 <= i < k < |listing| :: listing[i] != listing[k]
    ensures listing[0] !in Overflow(st, listing)
  {
    assert forall k | 0 <= k < |Overflow(st, listing)| :: Overflow(st, listing)[k] == listing[st.maxSessions + k];
  }

  /** After a login the user has at most `maxSessions` active families, now and at any later time, and no
      family was evicted that could stay. The rows it revoked are exactly the unrevoked ones of the families it
      evicted, and every active family it kept is more recent than every family it evicted. */
  lemma LoginBoundsSessions(st: Settings, origins: map<Family, Origin>, t: Table, user: int, later: Time,
                            listing: seq<Family>, now: Time)
    requires Inv(st, origins, t) && IsListing(t, user, later, listing) && later <= now
    ensures var after := RevokeFamilies(t, ToSet(Overflow(st, listing)), ConcurrencyLimit, later);
      && |ActiveFamilies(after, user, now)| <= st.maxSessions
      && |ActiveFamilies(after, user, later)|
         == (if |ActiveFamilies(t, user, later)| <= st.maxSessions then |ActiveFamilies(t, user, later)|
             else st.maxSessions)
      && (forall j | j in t :: after[j] != t[j] <==> t[j].revokedAt.None? && t[j].family in Overflow(st, listing))
      && (forall j, k | j in t && k in t && Active(t[j], user, later) && Active(t[k], user, later)
                        && t[j].family !in Overflow(st, listing) && t[k].family in Overflow(st, listing) ::
            AtLeast((t[j].issuedAt, t[j].id), (t[k].issuedAt, t[k].id)))
  {
    AtMostKept(st, t, user, later, listing, now);
    KeptStayActive(st, t, user, later, listing);
    hide ActiveFamilies, IsListing, Inv;
    forall j, k | j in t && k in t && Active(t[j], user, later) && Active(t[k], user, later)
                  && t[j].family !in Overflow(st, listing) && t[k].family in Overflow(st, listing)
      ensures AtLeast((t[j].issuedAt, t[j].id), (t[k].issuedAt, t[k].id))
    {
      KeptIsMoreRecent(st, origins, t, user, later, listing, j, k);
    }
  }

  lemma AtMostKept(st: Settings, t: Table, user: int, later: Time, listing: seq<Family>, now: Time)
    requires IsListing(t, user, later, listing) && later <= now
    ensures var after := RevokeFamilies(t, ToSet(Overflow(st, listing)), ConcurrencyLimit, later);
      |ActiveFamilies(after, user, now)| <= st.maxSessions
  {
    var after := RevokeFamilies(t, ToSet(Overflow(st, listing)), ConcurrencyLimit, later);
    var kept := if |listing| <= st.maxSessions then listing else listing[..st.maxSessions];
    forall f | f in ActiveFamilies(after, user, now) ensures f in ToSet(kept) {
      var j :| j in after && Active(after[j], user, now) && after[j].family == f;
      assert Active(t[j], user, later);
      assert f in ActiveFamilies(t, user, later);
      assert f !in Overflow(st, listing);
      KeptOrEvicted(st, listing, f);
    }
    SubsetSize(ActiveFamilies(after, user, now), ToSet(kept));
    ToSetSize(kept);
  }

  lemma KeptStayActive(st: Settings, t: Table, user: int, now: Time, listing: seq<Family>)
    requires IsListing(t, user, now, listing)
    ensures var after := RevokeFamilies(t, ToSet(Overflow(st, listing)), ConcurrencyLimit, now);
      var n := |ActiveFamilies(t, user, now)|;
      |ActiveFamilies(after, user, now)| == if n <= st.maxSessions then n else st.maxSessions
  {
    var after := RevokeFamilies(t, ToSet(Overflow(st, listing)), ConcurrencyLimit, now);
    var kept := if |listing| <= st.maxSessions then listing else listing[..st.maxSessions];
    assert ActiveFamilies(t, user, now) == ToSet(listing);
    assert listing == kept + Overflow(st, listing);
    forall f | f in kept ensures f in ActiveFamilies(after, user, now) {
      assert f in ActiveFamilies(t, user, now);
      var j :| j in t && Active(t[j], user, now) && t[j].family == f;
      var i :| 0 <= i < |kept| && kept[i] == f;
      assert f !in Overflow(st, listing);
      assert after[j] == t[j];
    }
    forall f | f in ActiveFamilies(after, user, now) ensures f in kept {
      var j :| j in after && Active(after[j], user, now) && after[j].family == f;
      assert t[j].family in ActiveFamilies(t, user, now);
      assert f in listing && f !in Overflow(st, listing);
    }
    assert ActiveFamilies(after, user, now) == ToSet(kept);
    DistinctSize(listing);
    DistinctSize(kept);
  }

  lemma DistinctSize<T>(s: seq<T>)
    requires forall i, k | 0 <= i < k < |s| :: s[i] != s[k]
    ensures |ToSet(s)| == |s|
  {
    if s != [] {
      assert ToSet(s) == ToSet(s[1..]) + {s[0]};
      DistinctSize(s[1..]);
    }
  }

  lemma KeptIsMoreRecent(st: Settings, origins: map<Family, Origin>, t: Table, user: int, now: Time,
      listing: seq<Family>, j: Jti, k: Jti)
    requires Inv(st, origins, t) && IsListing(t, user, now, listing)
    requires j in t && k in t && Active(t[j], user, now) && Active(t[k], user, now)
    requires t[j].family !in Overflow(st, listing) && t[k].family in Overflow(st, listing)
    ensures AtLeast((t[j].issuedAt, t[j].id), (t[k].issuedAt, t[k].id))
  {
    assert t[j].family in ActiveFamilies(t, user, now);
    KeptOrEvicted(st, listing, t[j].family);
    var i :| 0 <= i < |listing| && i < st.maxSessions && listing[i] == t[j].family;
    var e :| 0 <= e < |Overflow(st, listing)| && Overflow(st, listing)[e] == t[k].family;
    assert listing[st.maxSessions + e] == t[k].family;
    RecencyOfLiveRow(st, origins, t, user, now, j);
    RecencyOfLiveRow(st, origins, t, user, now, k);
  }

  lemma KeptOrEvicted(st: Settings, listing: seq<Family>, f: Family)
    requires f in listing && f !in Overflow(st, listing)
    ensures exists i :: 0 <= i < |listing| && i < st.maxSessions && listing[i] == f
  {
    var i :| 0 <= i < |listing| && listing[i] == f;
    assert forall k | st.maxSessions <= k < |listing| :: listing[k] == Overflow(st, listing)[k - st.maxSessions];
  }

  lemma SubsetSize<T>(a: set<T>, b: set<T>)
    requires a <= b
    ensures |a| <= |b|
  {
    if a != {} {
      var x :| x in a;
      SubsetSize(a - {x}, b - {x});
    }
  }

  // ---------- Change of password ----------

  lemma ChangePasswordKeepsInv(st: Settings, origins: map<Family, Origin>, t: Table, id: nat, user: int, family: Family,
                               draw: Draw, now: Time, issued: Time, listing: seq<Family>)
    requires Inv(st, origins, t) && draw.jti !in t && family !in origins && Before(t, user, id, issued)
    ensures Inv(st, origins[family := Origin(user, issued)],
                RowsAfterIssue(st, RevokeFamilies(t, ToSet(listing), PasswordChanged, now),
                               id, user, family, draw, issued))
  {
    hide Inv;
    RevokeKeepsInv(st, origins, t, ToSet(listing), PasswordChanged, now);
    NewFamilyKeepsInv(st, origins, RevokeFamilies(t, ToSet(listing), PasswordChanged, now), id, draw.jti, family,
        user, draw.secret, issued);
  }

  /** After a change of password an older token of the user is accepted exactly when it was unrevoked
      and already expired at the change, and is checked against a clock read before that expiry. With
      a clock read at or after the change no older token is ever accepted. */
  lemma OlderTokensAfterPasswordChange(st: Settings, origins: map<Family, Origin>, t: Table, id: nat, user: int,
                                       family: Family, draw: Draw, now: Time, issued: Time,
                                       listing: seq<Family>, j: Jti, checked: Time)
    requires Inv(st, origins, t) && IsListing(t, user, now, listing) && draw.jti !in t
    requires j in t && t[j].user == user
    ensures var after := RowsAfterIssue(st, RevokeFamilies(t, ToSet(listing), PasswordChanged, now), id, user,
        family, draw, issued);
      && (Renewable(after[j], checked) <==> t[j].revokedAt.None? && checked < t[j].expiresAt <= now)
      && (now <= checked ==> !Renewable(after[j], checked))
      && (t[j].revokedAt.Some? ==> after[j] == t[j])
  {
    assert RowOk(st, origins, j, t[j]);
    if Active(t[j], user, now) {
      assert t[j].family in ActiveFamilies(t, user, now);
    } else if t[j].revokedAt.None? && t[j].family in listing {
      assert t[j].family in ActiveFamilies(t, user, now);
      var k :| k in t && Active(t[k], user, now) && t[k].family == t[j].family;
      OneLiveRow(st, origins, t, k, j);
    }
  }

  // ---------- There is always a listing ----------

  lemma {:induction false} Grouped(t: Table, user: int, now: Time) returns (recent: map<Family, (Time, nat)>)
    ensures recent.Keys == ActiveFamilies(t, user, now)
    ensures forall f | f in recent :: IsRecency(t, user, now, f, recent[f])
    decreases t.Keys
  {
    hide IsRecency;
    recent := map[];
    if t.Keys != {} {
      var j :| j in t.Keys;
      var rest := t - {j};
      recent := Grouped(rest, user, now);
      GroupOneMore(rest, t, user, now, j, recent);
      if Active(t[j], user, now) { recent := recent[t[j].family := Raise(recent, t[j])]; }
      hide ActiveFamilies;
    }
  }

  lemma {:induction false} GreatestOf(all: map<Family, (Time, nat)>, fs: set<Family>) returns (f: Family)
    requires fs <= all.Keys && fs != {}
    ensures f in fs && forall g | g in fs :: AtLeast(all[f], all[g])
    decreases fs
  {
    f :| f in fs;
    if fs != {f} {
      var g := GreatestOf(all, fs - {f});
      if !AtLeast(all[f], all[g]) { f := g; }
    }
  }

  lemma {:induction false} Sorted(all: map<Family, (Time, nat)>, fs: set<Family>) returns (l: seq<Family>)
    requires fs <= all.Keys
    ensures forall f :: f in l <==> f in fs
    ensures forall i, k | 0 <= i < k < |l| :: l[i] != l[k] && AtLeast(all[l[i]], all[l[k]])
    decreases fs
  {
    l := [];
    if fs != {} {
      var f := GreatestOf(all, fs);
      var rest := Sorted(all, fs - {f});
      l := [f] + rest;
      forall k | 0 <= k < |rest| ensures rest[k] in fs - {f} { assert rest[k] in rest; }
    }
  }

  lemma ListingExists(t: Table, user: int, now: Time) returns (l: seq<Family>)
    ensures IsListing(t, user, now, l)
  {
    hide IsRecency, ActiveFamilies, IsListing;
    var all := Grouped(t, user, now);
    l := Sorted(all, all.Keys);
    SortedIsListing(t, user, now, all, l);
  }
}
