/** The browser side of the refresh protocol: the token store and single-flight `refreshOnce` of one
    tab, and the tab composed with the server.

    A promise is its state: no refresh pending, one pending for a token that was sent, or a rejected
    promise that stays in `inflight` because the refresh failed before its first await. */
module SessionClient {
  import opened Wrappers
  import opened RefreshTable
  import opened RefreshService
  import RefreshLaws

  datatype Inflight = Idle | Sent(token: Jti) | Latched

  // `stored` is what sessionStorage holds; `access` is the access token in memory.
  datatype Client = Client(access: Option<nat>, stored: Option<Jti>, inflight: Inflight)

  // ---------- What each event does to the client ----------

  function SetTokens(c: Client, access: nat, refresh: Jti): Client {
    c.(access := Some(access), stored := Some(refresh))
  }

  function ClearTokens(c: Client): Client { c.(access := None, stored := None) }

  /** A call of `refreshOnce`; the token is what goes over the wire, if anything does. */
  function RefreshCalled(c: Client): (Client, Option<Jti>) {
    if !c.inflight.Idle? then (c, None)
    else match c.stored
      case None => (ClearTokens(c).(inflight := Latched), None)
      case Some(t) => (c.(inflight := Sent(t)), Some(t))
  }

  function RefreshSucceeded(c: Client, access: nat, refresh: Jti): Client {
    SetTokens(c, access, refresh).(inflight := Idle)
  }

  function RefreshFailed(c: Client): Client { ClearTokens(c).(inflight := Idle) }

  /** A page load starts the module afresh; sessionStorage survives it. */
  function Reloaded(c: Client): Client { Client(None, c.stored, Idle) }

  /** The module's variables, and the calls that change them. */
  class Session {
    var accessToken: Option<nat>
    var storage: Option<Jti>
    var inflight: Inflight

    function State(): Client
      reads this
    {
      Client(accessToken, storage, inflight)
    }

    constructor ()
      ensures State() == Client(None, None, Idle)
    {
      accessToken, storage, inflight := None, None, Idle;
    }

    method Store(access: nat, refresh: Jti)
      modifies this
      ensures State() == SetTokens(old(State()), access, refresh)
      ensures accessToken == Some(access) && storage == Some(refresh) && inflight == old(inflight)
    {
      accessToken := Some(access);
      storage := Some(refresh);
    }

    method Clear()
      modifies this
      ensures State() == ClearTokens(old(State()))
      ensures accessToken == None && storage == None && inflight == old(inflight)
    {
      accessToken := None;
      storage := None;
    }

    /** The synchronous part of `refreshOnce`, up to the first await or the throw before it. */
    method RefreshOnce() returns (sent: Option<Jti>)
      modifies this
      ensures (State(), sent) == RefreshCalled(old(State()))
      ensures !old(inflight.Idle?) ==> State() == old(State()) && sent == None
      ensures old(inflight.Idle? && storage.None?) ==> State() == Client(None, None, Latched) && sent == None
      ensures old(inflight.Idle? && storage.Some?) ==>
                && State() == Client(old(accessToken), old(storage), Sent(old(storage).value)) && sent == old(storage)
    {
      if !inflight.Idle? { return None; }
      var refreshToken := storage;
      if refreshToken.None? {
        // the catch clause, then the finally clause, and only then the assignment to `inflight`
        Clear();
        inflight := Idle;
        inflight := Latched;
        return None;
      }
      inflight := Sent(refreshToken.value);
      sent := refreshToken;
    }

    method Resolve(access: nat, refresh: Jti)
      requires inflight.Sent?
      modifies this
      ensures State() == RefreshSucceeded(old(State()), access, refresh)
      ensures State() == Client(Some(access), Some(refresh), Idle)
    {
      Store(access, refresh);
      inflight := Idle;
    }

    method Reject()
      requires inflight.Sent?
      modifies this
      ensures State() == RefreshFailed(old(State()))
      ensures State() == Client(None, None, Idle)
    {
      Clear();
      inflight := Idle;
    }
  }

  // ---------- The tab and the server ----------

  datatype World = World(
    client: Client,
    rows: Table, nextId: nat, users: map<int, User>,
    wire: set<nat>,                 // numbers of the refresh requests not yet handled by the server
    replies: map<nat, Jti>,         // number of a request -> new token, on its way back
    logins: set<Jti>,               // tokens of login answers on their way back
    // history
    secrets: map<Jti, nat>,         // every token issued to this tab, with its secret
    families: set<Family>,          // their families
    submitted: seq<Jti>,            // tokens sent by refreshOnce, in order: request n carries submitted[n]
    fired: bool,                    // the server has answered one of them with TOKEN_REUSED
    stale: bool)                    // the stored token was in flight when the page was reloaded

  datatype Event =
    | CallRefresh
    | ServerRefresh(n: nat, checked: Time, issued: Time, revoked: Time, draw: Draw)
    | Answered(access: nat)
    | RefreshLost
    | ServerLogin(user: int, family: Family, draw: Draw, now: Time, later: Time, listing: seq<Family>)
    | LoginAnswered(t: Jti, access: nat)
    | Forget                                    // logout, or an expired session
    | ServerLogout(t: Jti, now: Time)
    | Reload
    | OtherRefresh(raw: RawToken, checked: Time, issued: Time, revoked: Time, draw: Draw)
    | OtherLogout(raw: RawToken, now: Time)
    | OtherRevocation(fs: set<Family>, reason: Reason, now: Time)   // eviction, change of password
    | OtherLogin(row: Row)
    | Cleanup(cutoff: Time)

  /** Nobody else holds this tab's tokens. */
  predicate Foreign(w: World, raw: RawToken) { Presented(w.rows, raw) ==> raw.jti !in w.secrets }

  /** A uuid that has never been used. */
  predicate Unused(w: World, j: Jti) { j !in w.rows && j !in w.secrets }

  /** The number of the last request, the one that the tab waits for while one is in flight. An answer to an
      earlier one, of a page that is gone or after a failure, reaches nobody. */
  function Current(w: World): int { |w.submitted| - 1 }

  predicate Grants(w: World, n: nat, checked: Time) {
    && n < |w.submitted| && w.submitted[n] in w.secrets
    && var t := w.submitted[n]; Presented(w.rows, Token(t, w.secrets[t])) && Renewable(w.rows[t], checked)
  }

  ghost predicate Next(st: Settings, w: World, e: Event, w': World) {
    match e
    case CallRefresh =>
      var (c, sent) := RefreshCalled(w.client);
      w' == if sent.None? then w.(client := c, stale := false)
            else w.(client := c, stale := false, wire := w.wire + {|w.submitted|},
                    submitted := w.submitted + [sent.value])
    case ServerRefresh(n, checked, issued, revoked, draw) =>
      && n in w.wire && n < |w.submitted| && w.submitted[n] in w.secrets && Unused(w, draw.jti)
      && var t := w.submitted[n];
         var raw := Token(t, w.secrets[t]);
         var w1 := w.(wire := w.wire - {n},
                      rows := RowsAfterRefresh(st, w.rows, w.users, w.nextId, raw, checked, issued, revoked, draw),
                      nextId := w.nextId + 1,
                      fired := w.fired || (Presented(w.rows, raw) && IsReuse(w.rows[t])));
         w' == if Grants(w, n, checked)
               then w1.(secrets := w.secrets[draw.jti := draw.secret],
                        replies := if IsActive(w.users, w.rows[t].user) then w.replies[n := draw.jti] else w.replies)
               else w1
    case Answered(access) =>
      && w.client.inflight.Sent? && Current(w) in w.replies
      && w' == w.(client := RefreshSucceeded(w.client, access, w.replies[Current(w)]),
                  replies := w.replies - {Current(w)})
    case RefreshLost =>
      w.client.inflight.Sent? && w' == w.(client := RefreshFailed(w.client), replies := w.replies - {Current(w)})
    case ServerLogin(user, family, draw, now, later, listing) =>
      && Unused(w, draw.jti) && family !in w.families && (forall j | j in w.rows :: w.rows[j].family != family)
      && w' == w.(rows := RevokeFamilies(RowsAfterIssue(st, w.rows, w.nextId, user, family, draw, now),
                                         ToSet(Overflow(st, listing)), ConcurrencyLimit, later),
                  nextId := w.nextId + 1, secrets := w.secrets[draw.jti := draw.secret],
                  families := w.families + {family}, logins := w.logins + {draw.jti})
    case LoginAnswered(t, access) =>
      t in w.logins && w' == w.(client := SetTokens(w.client, access, t), logins := w.logins - {t}, stale := false)
    case Forget => w' == w.(client := ClearTokens(w.client), stale := false)
    case ServerLogout(t, now) =>
      t in w.secrets && w' == w.(rows := RowsAfterLogout(w.rows, Token(t, w.secrets[t]), now))
    case Reload =>
      w' == w.(client := Reloaded(w.client),
               stale := w.stale || (w.client.inflight.Sent? && w.client.stored == Some(w.client.inflight.token)))
    case OtherRefresh(raw, checked, issued, revoked, draw) =>
      && Unused(w, draw.jti) && Foreign(w, raw)
      && w' == w.(rows := RowsAfterRefresh(st, w.rows, w.users, w.nextId, raw, checked, issued, revoked, draw),
          nextId := w.nextId + 1)
    case OtherLogout(raw, now) => Foreign(w, raw) && w' == w.(rows := RowsAfterLogout(w.rows, raw, now))
    case OtherRevocation(fs, reason, now) =>
      (reason == ConcurrencyLimit || reason == PasswordChanged)
          && w' == w.(rows := RevokeFamilies(w.rows, fs, reason, now))
    case OtherLogin(row) =>
      Unused(w, row.jti) && row.family !in w.families && !IsReuse(row) && w' == w.(rows := w.rows[row.jti := row])
    case Cleanup(cutoff) => w' == w.(rows := DeleteExpired(w.rows, cutoff))
  }

  ghost predicate Start(w: World) {
    && w.client == Client(None, None, Idle) && w.wire == {} && w.replies == map[] && w.logins == {}
    && w.secrets == map[] && w.families == {} && w.submitted == [] && !w.fired && !w.stale
  }

  /** A call that finds the token of a request from before a reload. */
  predicate Resends(w: World, e: Event) { e.CallRefresh? && w.stale }

  /** The token has never been sent, and is in one place only. */
  ghost predicate Unspent(w: World, t: Jti) { t in w.secrets && t !in w.submitted }

  /** While nothing has been sent twice. */
  ghost predicate ClientOk(w: World) {
    && (forall i, k | 0 <= i < k < |w.submitted| :: w.submitted[i] != w.submitted[k])
    && (w.client.stored.Some? ==>
          Unspent(w, w.client.stored.value) || w.client.inflight == Sent(w.client.stored.value) || w.stale)
    && (forall t | t in w.submitted :: t in w.secrets)
    && (forall t | t in w.logins :: Unspent(w, t) && w.client.stored != Some(t))
    && (forall n | n in w.replies ::
          && n < |w.submitted| && Unspent(w, w.replies[n])
          && w.client.stored != Some(w.replies[n]) && w.replies[n] !in w.logins)
    && (forall m, n | m in w.replies && n in w.replies && m != n :: w.replies[m] != w.replies[n])
  }

  /** Whatever has happened: the tab waits for its last request, and a stale token has been sent. */
  ghost predicate FlightOk(w: World) {
    && (w.client.inflight.Sent? ==> Current(w) >= 0 && w.submitted[Current(w)] == w.client.inflight.token)
    && (w.stale ==> w.client.inflight.Idle? && w.client.stored.Some? && w.client.stored.value in w.submitted)
  }

  /** The rows of the tab's families are those of its tokens. */
  ghost predicate OwnRows(w: World) {
    forall j | j in w.rows :: j in w.secrets <==> w.rows[j].family in w.families
  }

  /** A token whose refresh the server has not handled is not marked as reused. */
  ghost predicate ServerOk(w: World) {
    && (forall n | n in w.wire :: n < |w.submitted|)
    && OwnRows(w)
    && (forall j | j in w.rows && j in w.secrets && j !in w.submitted :: !IsReuse(w.rows[j]))
    && (forall n | n in w.wire && w.submitted[n] in w.rows && w.submitted[n] in w.secrets ::
          !IsReuse(w.rows[w.submitted[n]]))
    && !w.fired
  }

  /** A refresh leaves every row in its family, adds at most the successor, and marks as reused only
      the row presented or, when that row had been reused already, rows of its family. */
  lemma RefreshEffect(st: Settings, t: Table, users: map<int, User>, id: nat, raw: RawToken,
                      checked: Time, issued: Time, revoked: Time, draw: Draw)
    requires draw.jti !in t
    ensures var t' := RowsAfterRefresh(st, t, users, id, raw, checked, issued, revoked, draw);
      && (forall j | j in t' && j != draw.jti :: j in t && t'[j].family == t[j].family)
      && (draw.jti in t' ==> Presented(t, raw) && Renewable(t[raw.jti], checked)
                             && t'[draw.jti].family == t[raw.jti].family && !IsReuse(t'[draw.jti]))
      && (forall j | j in t' && j != draw.jti && IsReuse(t'[j]) && !IsReuse(t[j]) ::
            Presented(t, raw) && (j == raw.jti || (IsReuse(t[raw.jti]) && t[j].family == t[raw.jti].family)))
  {
  }

  lemma GrownSecrets(w: World, w': World)
    requires ClientOk(w) && w'.client == w.client && w'.submitted == w.submitted && w'.replies == w.replies
        && w'.logins == w.logins && w'.stale == w.stale
    requires w.secrets.Keys <= w'.secrets.Keys
    ensures ClientOk(w')
  {
  }

  lemma ServerRefreshKeepsClient(st: Settings, w: World, e: Event, w': World)
    requires e.ServerRefresh? && FlightOk(w) && ClientOk(w) && Next(st, w, e, w')
    ensures ClientOk(w')
  {
    hide RowsAfterRefresh, Renewable, IsReuse, IsActive, Presented, Grants;
    AnotherReply(w, e.n, e.draw);
    hide ClientOk;
    if w'.replies == w.replies { GrownSecrets(w, w'); } else {
      GrownSecrets(w.(secrets := w'.secrets, replies := w'.replies), w');
    }
  }

  /** An answer with a token that nobody has seen. */
  lemma AnotherReply(w: World, n: nat, draw: Draw)
    requires FlightOk(w) && ClientOk(w) && n < |w.submitted| && draw.jti !in w.secrets
    ensures ClientOk(w.(secrets := w.secrets[draw.jti := draw.secret], replies := w.replies[n := draw.jti]))
  {
  }

  lemma ServerRefreshKeepsOwnRows(st: Settings, w: World, e: Event, w': World)
    requires e.ServerRefresh? && OwnRows(w) && Next(st, w, e, w')
    ensures OwnRows(w')
  {
    hide RowsAfterRefresh, Renewable, IsReuse, IsActive;
    RefreshEffect(st, w.rows, w.users, w.nextId, Token(w.submitted[e.n], w.secrets[w.submitted[e.n]]),
                  e.checked, e.issued, e.revoked, e.draw);
  }

  lemma ServerRefreshKeepsServer(st: Settings, w: World, e: Event, w': World)
    requires e.ServerRefresh? && ClientOk(w) && ServerOk(w) && Next(st, w, e, w')
    ensures ServerOk(w')
  {
    hide OwnRows, RowsAfterRefresh, Renewable, IsReuse, IsActive;
    ServerRefreshKeepsOwnRows(st, w, e, w');
    RefreshEffect(st, w.rows, w.users, w.nextId, Token(w.submitted[e.n], w.secrets[w.submitted[e.n]]),
                  e.checked, e.issued, e.revoked, e.draw);
    hide ClientOk;
  }

  lemma ServerRefreshKeeps(st: Settings, w: World, e: Event, w': World)
    requires e.ServerRefresh? && FlightOk(w) && ClientOk(w) && ServerOk(w) && Next(st, w, e, w')
    ensures ClientOk(w') && ServerOk(w')
  {
    hide Next, ClientOk, ServerOk, FlightOk;
    ServerRefreshKeepsClient(st, w, e, w');
    ServerRefreshKeepsServer(st, w, e, w');
  }

  lemma OtherRefreshKeeps(st: Settings, w: World, e: Event, w': World)
    requires e.OtherRefresh? && ClientOk(w) && ServerOk(w) && Next(st, w, e, w')
    ensures ClientOk(w') && ServerOk(w')
  {
    hide RowsAfterRefresh, Renewable, IsReuse, IsActive;
    RefreshEffect(st, w.rows, w.users, w.nextId, e.raw, e.checked, e.issued, e.revoked, e.draw);
    GrownSecrets(w, w');
    hide ClientOk;
  }

  lemma RevokeEffect(t: Table, fs: set<Family>, reason: Reason, now: Time)
    requires reason != ReuseDetected
    ensures var t' := RevokeFamilies(t, fs, reason, now);
      t'.Keys == t.Keys && forall j | j in t' :: t'[j].family == t[j].family && (IsReuse(t'[j]) ==> IsReuse(t[j]))
  {
  }

  lemma LogoutKeeps(st: Settings, w: World, e: Event, w': World)
    requires e.ServerLogout? || e.OtherLogout?
    requires ClientOk(w) && ServerOk(w) && Next(st, w, e, w')
    ensures ClientOk(w') && ServerOk(w')
  {
    hide RowsAfterRefresh, RevokeFamilies, IsReuse;
    GrownSecrets(w, w');
    hide ClientOk;
    var raw := if e.ServerLogout? then Token(e.t, w.secrets[e.t]) else e.raw;
    if Presented(w.rows, raw) { RevokeEffect(w.rows, {w.rows[raw.jti].family}, LoggedOut, e.now); }
  }

  lemma RevocationKeeps(st: Settings, w: World, e: Event, w': World)
    requires e.OtherRevocation?
    requires ClientOk(w) && ServerOk(w) && Next(st, w, e, w')
    ensures ClientOk(w') && ServerOk(w')
  {
    hide RowsAfterRefresh, RevokeFamilies, IsReuse;
    RevokeEffect(w.rows, e.fs, e.reason, e.now);
  }

  lemma LoginKeepsClient(st: Settings, w: World, e: Event, w': World)
    requires e.ServerLogin?
    requires FlightOk(w) && ClientOk(w) && Next(st, w, e, w')
    ensures ClientOk(w')
  {
    hide RowsAfterRefresh, RevokeFamilies, Overflow;
    RevokeEffect(RowsAfterIssue(st, w.rows, w.nextId, e.user, e.family, e.draw, e.now), ToSet(Overflow(st,
        e.listing)), ConcurrencyLimit, e.later);
  }

  lemma LoginKeepsServer(st: Settings, w: World, e: Event, w': World)
    requires e.ServerLogin?
    requires ClientOk(w) && ServerOk(w) && Next(st, w, e, w')
    ensures ServerOk(w')
  {
    hide RowsAfterRefresh, RevokeFamilies, Overflow;
    RevokeEffect(RowsAfterIssue(st, w.rows, w.nextId, e.user, e.family, e.draw, e.now), ToSet(Overflow(st,
        e.listing)), ConcurrencyLimit, e.later);
  }

  lemma LoginKeeps(st: Settings, w: World, e: Event, w': World)
    requires e.ServerLogin?
    requires FlightOk(w) && ClientOk(w) && ServerOk(w) && Next(st, w, e, w')
    ensures ClientOk(w') && ServerOk(w')
  {
    hide Next, ClientOk, ServerOk, FlightOk;
    LoginKeepsClient(st, w, e, w');
    LoginKeepsServer(st, w, e, w');
  }

  lemma OtherRowsKeep(st: Settings, w: World, e: Event, w': World)
    requires e.OtherLogin? || e.Cleanup?
    requires ClientOk(w) && ServerOk(w) && Next(st, w, e, w')
    ensures ClientOk(w') && ServerOk(w')
  {
    hide RowsAfterRefresh, IsReuse;
    GrownSecrets(w, w');
    hide ClientOk;
  }

  lemma CallKeepsClient(st: Settings, w: World, e: Event, w': World)
    requires e.CallRefresh? && !w.stale
    requires ClientOk(w) && Next(st, w, e, w')
    ensures ClientOk(w')
  {
    hide RowsAfterRefresh, IsReuse;
    if w.client.inflight.Idle? && w.client.stored.Some? {
      assert w.client.stored.value !in w.submitted;
      assert w'.submitted == w.submitted + [w.client.stored.value];
      assert forall x :: x in w'.submitted <==> x in w.submitted || x == w.client.stored.value;
    } else {
      assert w'.submitted == w.submitted;
    }
  }

  lemma CallKeepsServer(st: Settings, w: World, e: Event, w': World)
    requires e.CallRefresh? && !w.stale
    requires ClientOk(w) && ServerOk(w) && Next(st, w, e, w')
    ensures ServerOk(w')
  {
    hide RowsAfterRefresh, IsReuse;
    var (_, sent) := RefreshCalled(w.client);
    assert sent.Some? ==> w.client.stored == sent && sent.value !in w.submitted;
    assert sent.Some? ==> forall x :: x in w'.submitted <==> x in w.submitted || x == sent.value;
    assert forall n | n in w'.wire ::
        n in w.wire || (sent.Some? && n == |w.submitted| && w'.submitted[n] == sent.value);
    hide ClientOk;
  }

  lemma CallKeeps(st: Settings, w: World, e: Event, w': World)
    requires e.CallRefresh? && !w.stale
    requires ClientOk(w) && ServerOk(w) && Next(st, w, e, w')
    ensures ClientOk(w') && ServerOk(w')
  {
    hide Next, ClientOk, ServerOk;
    CallKeepsClient(st, w, e, w');
    CallKeepsServer(st, w, e, w');
  }

  lemma AnswerKeeps(st: Settings, w: World, e: Event, w': World)
    requires e.Answered? || e.RefreshLost?
    requires FlightOk(w) && ClientOk(w) && ServerOk(w) && Next(st, w, e, w')
    ensures ClientOk(w') && ServerOk(w')
  {
    hide RowsAfterRefresh, IsReuse;
  }

  lemma TabKeepsClient(st: Settings, w: World, e: Event, w': World)
    requires e.LoginAnswered? || e.Forget? || e.Reload?
    requires FlightOk(w) && ClientOk(w) && Next(st, w, e, w')
    ensures ClientOk(w')
  {
    hide RowsAfterRefresh, IsReuse;
  }

  lemma TabKeepsServer(st: Settings, w: World, e: Event, w': World)
    requires e.LoginAnswered? || e.Forget? || e.Reload?
    requires ServerOk(w) && Next(st, w, e, w')
    ensures ServerOk(w')
  {
    hide RowsAfterRefresh, IsReuse;
  }

  lemma TabKeeps(st: Settings, w: World, e: Event, w': World)
    requires e.LoginAnswered? || e.Forget? || e.Reload?
    requires FlightOk(w) && ClientOk(w) && ServerOk(w) && Next(st, w, e, w')
    ensures ClientOk(w') && ServerOk(w')
  {
    hide Next, ClientOk, ServerOk, FlightOk;
    TabKeepsClient(st, w, e, w');
    TabKeepsServer(st, w, e, w');
  }

  lemma NextKeeps(st: Settings, w: World, e: Event, w': World)
    requires FlightOk(w) && ClientOk(w) && ServerOk(w) && Next(st, w, e, w') && !Resends(w, e)
    ensures ClientOk(w') && ServerOk(w')
  {
    hide Next, ClientOk, ServerOk, FlightOk;
    match e
    case ServerRefresh(_, _, _, _, _) => ServerRefreshKeeps(st, w, e, w');
    case OtherRefresh(_, _, _, _, _) => OtherRefreshKeeps(st, w, e, w');
    case CallRefresh => CallKeeps(st, w, e, w');
    case Answered(_) => AnswerKeeps(st, w, e, w');
    case RefreshLost => AnswerKeeps(st, w, e, w');
    case ServerLogin(_, _, _, _, _, _) => LoginKeeps(st, w, e, w');
    case ServerLogout(_, _) => LogoutKeeps(st, w, e, w');
    case OtherLogout(_, _) => LogoutKeeps(st, w, e, w');
    case OtherRevocation(_, _, _) => RevocationKeeps(st, w, e, w');
    case OtherLogin(_) => OtherRowsKeep(st, w, e, w');
    case Cleanup(_) => OtherRowsKeep(st, w, e, w');
    case _ => TabKeeps(st, w, e, w');
  }

  /** Requests are numbered in the order in which they are sent, and none is forgotten. */
  lemma FlightKept(st: Settings, w: World, e: Event, w': World)
    requires FlightOk(w) && Next(st, w, e, w')
    ensures FlightOk(w') && w.submitted <= w'.submitted
  {
    if AtServer(e) {
      ServerLeavesTab(st, w, e, w');
      hide Next;
    } else {
      TabKeepsFlight(st, w, e, w');
      hide Next, FlightOk;
    }
  }

  lemma TabKeepsFlight(st: Settings, w: World, e: Event, w': World)
    requires FlightOk(w) && Next(st, w, e, w') && !AtServer(e)
    ensures FlightOk(w') && w.submitted <= w'.submitted
  {
  }

  predicate AtServer(e: Event) {
    e.ServerRefresh? || e.ServerLogin? || e.ServerLogout? || e.OtherRefresh? || e.OtherLogout? || e.OtherRevocation?
    || e.OtherLogin? || e.Cleanup?
  }

  lemma ServerLeavesTab(st: Settings, w: World, e: Event, w': World)
    requires Next(st, w, e, w') && AtServer(e)
    ensures w'.client == w.client && w'.submitted == w.submitted && w'.stale == w.stale
  {
    hide RowsAfterRefresh, RowsAfterLogout, RowsAfterIssue, RevokeFamilies, Presented, Renewable, IsReuse,
         DeleteExpired, Overflow, IsActive, Foreign, Unused, Grants;
    if e.ServerRefresh? {
      ServerRefreshLeavesTab(st, w, e, w');
      hide Next;
    } else if e.ServerLogin? || e.OtherLogin? {
      LoginLeavesTab(st, w, e, w');
      hide Next;
    }
  }

  lemma ServerRefreshLeavesTab(st: Settings, w: World, e: Event, w': World)
    requires Next(st, w, e, w') && e.ServerRefresh?
    ensures w'.client == w.client && w'.submitted == w.submitted && w'.stale == w.stale
  {
    hide RowsAfterRefresh, Presented, Renewable, IsReuse, IsActive, Unused, Grants;
  }

  lemma LoginLeavesTab(st: Settings, w: World, e: Event, w': World)
    requires Next(st, w, e, w') && (e.ServerLogin? || e.OtherLogin?)
    ensures w'.client == w.client && w'.submitted == w.submitted && w'.stale == w.stale
  {
    hide RowsAfterIssue, RevokeFamilies, IsReuse, Overflow, Unused;
  }

  ghost predicate IsHistory(st: Settings, worlds: seq<World>, events: seq<Event>) {
    && |worlds| == |events| + 1 && Start(worlds[0])
    && forall i | 0 <= i < |events| :: Next(st, worlds[i], events[i], worlds[i + 1])
  }

  lemma {:induction false} AllInFlight(st: Settings, worlds: seq<World>, events: seq<Event>, i: nat)
    requires IsHistory(st, worlds, events) && i < |worlds|
    ensures FlightOk(worlds[i])
  {
    hide Next;
    if i > 0 {
      AllInFlight(st, worlds, events, i - 1);
      FlightKept(st, worlds[i - 1], events[i - 1], worlds[i]);
    }
  }

  lemma {:induction false} AllOk(st: Settings, worlds: seq<World>, events: seq<Event>, i: nat)
    requires IsHistory(st, worlds, events) && i < |worlds|
    requires forall k | 0 <= k < i :: !Resends(worlds[k], events[k])
    ensures ClientOk(worlds[i]) && ServerOk(worlds[i])
  {
    hide Next, FlightOk;
    if i > 0 {
      AllOk(st, worlds, events, i - 1);
      AllInFlight(st, worlds, events, i - 1);
      NextKeeps(st, worlds[i - 1], events[i - 1], worlds[i]);
    }
  }

  lemma {:induction false} SubmittedGrows(st: Settings, worlds: seq<World>, events: seq<Event>, i: nat, k: nat)
    requires IsHistory(st, worlds, events) && i <= k < |worlds|
    ensures worlds[i].submitted <= worlds[k].submitted
    decreases k
  {
    hide Next, FlightOk;
    if i < k {
      SubmittedGrows(st, worlds, events, i, k - 1);
      AllInFlight(st, worlds, events, k - 1);
      FlightKept(st, worlds[k - 1], events[k - 1], worlds[k]);
    }
  }

  ghost predicate SentTwice(w: World) { exists m, n :: 0 <= m < n < |w.submitted| && w.submitted[m] == w.submitted[n] }

  lemma ResendSendsTwice(st: Settings, w: World, e: Event, w': World)
    requires FlightOk(w) && Next(st, w, e, w') && Resends(w, e)
    ensures SentTwice(w')
  {
    var t := w.client.stored.value;
    var m :| 0 <= m < |w.submitted| && w.submitted[m] == t;
    assert w'.submitted[m] == t && w'.submitted[|w.submitted|] == t;
  }

  lemma StaysSentTwice(w: World, w': World)
    requires SentTwice(w) && w.submitted <= w'.submitted
    ensures SentTwice(w')
  {
    var m, n :| 0 <= m < n < |w.submitted| && w.submitted[m] == w.submitted[n];
    assert w'.submitted[m] == w'.submitted[n];
  }

  /** In every history, whatever the interleaving of calls, logins, logouts, answers, losses, reloads and the
      doings of other sessions: a token has been sent twice if and only if some call was made with a stored
      token that had been in flight when the page was reloaded, and that no login, logout or earlier call has
      done away with since. */
  lemma SentTwiceExactlyWhenResent(st: Settings, worlds: seq<World>, events: seq<Event>, i: nat)
    requires IsHistory(st, worlds, events) && i < |worlds|
    ensures SentTwice(worlds[i]) <==> exists k :: 0 <= k < i && Resends(worlds[k], events[k])
  {
    hide Next, FlightOk, SentTwice, Resends, ServerOk;
    if k :| 0 <= k < i && Resends(worlds[k], events[k]) {
      AllInFlight(st, worlds, events, k);
      ResendSendsTwice(st, worlds[k], events[k], worlds[k + 1]);
      SubmittedGrows(st, worlds, events, k + 1, i);
      StaysSentTwice(worlds[k + 1], worlds[i]);
    } else {
      AllOk(st, worlds, events, i);
      AllSentOnce(worlds[i]);
    }
  }

  lemma AllSentOnce(w: World)
    requires ClientOk(w)
    ensures !SentTwice(w)
  {
  }

  /** As long as no such call has been made, the server answers none of the tab's tokens with TOKEN_REUSED. */
  lemma NoReuseWithoutResend(st: Settings, worlds: seq<World>, events: seq<Event>, i: nat)
    requires IsHistory(st, worlds, events) && i < |worlds| && worlds[i].fired
    ensures exists k :: 0 <= k < i && Resends(worlds[k], events[k])
  {
    hide Next, ClientOk, Resends;
    if forall k | 0 <= k < i :: !Resends(worlds[k], events[k]) { AllOk(st, worlds, events, i); }
  }

  /** The tab's token, for as long as it is stored, is marked as renewed. */
  ghost predicate Spent(w: World, t: Jti) {
    && t in w.secrets
    && (t in w.rows ==> w.rows[t].rotatedTo.Some? && w.rows[t].secret == w.secrets[t])
  }

  lemma SpentByRefresh(st: Settings, t: Table, users: map<int, User>, id: nat, raw: RawToken,
                       checked: Time, issued: Time, revoked: Time, draw: Draw, j: Jti)
    requires draw.jti !in t && j != draw.jti && j in t
    requires t[j].rotatedTo.Some? || (raw.Token? && j == raw.jti && Presented(t, raw) && Renewable(t[j], checked))
    ensures var t' := RowsAfterRefresh(st, t, users, id, raw, checked, issued, revoked, draw);
      j in t' && t'[j].rotatedTo.Some? && t'[j].secret == t[j].secret
  {
  }

  lemma RevokeLeaves(t: Table, fs: set<Family>, reason: Reason, now: Time)
    ensures var t' := RevokeFamilies(t, fs, reason, now);
      t'.Keys == t.Keys && forall j | j in t :: t'[j].rotatedTo == t[j].rotatedTo && t'[j].secret == t[j].secret
  {
  }

  lemma DeleteLeaves(t: Table, cutoff: Time)
    ensures forall j | j in DeleteExpired(t, cutoff) :: j in t && DeleteExpired(t, cutoff)[j] == t[j]
  {
  }

  /** The token keeps its secret, its row its successor, or the row is gone. */
  ghost predicate Leaves(w: World, w': World, t: Jti) {
    && t in w.secrets && t in w'.secrets && w'.secrets[t] == w.secrets[t]
    && (t in w'.rows ==>
          t in w.rows && w'.rows[t].rotatedTo == w.rows[t].rotatedTo && w'.rows[t].secret == w.rows[t].secret)
  }

  lemma LoginLeaves(st: Settings, w: World, e: Event, w': World, t: Jti)
    requires Next(st, w, e, w') && t in w.secrets && e.ServerLogin?
    ensures Leaves(w, w', t)
  {
    var rows := RowsAfterIssue(st, w.rows, w.nextId, e.user, e.family, e.draw, e.now);
    RevokeLeaves(rows, ToSet(Overflow(st, e.listing)), ConcurrencyLimit, e.later);
    hide RevokeFamilies, Overflow, NewRow;
  }

  lemma LogoutLeaves(st: Settings, w: World, e: Event, w': World, t: Jti)
    requires Next(st, w, e, w') && t in w.secrets && (e.ServerLogout? || e.OtherLogout?)
    ensures Leaves(w, w', t)
  {
    var raw := if e.ServerLogout? then Token(e.t, w.secrets[e.t]) else e.raw;
    if Presented(w.rows, raw) { RevokeLeaves(w.rows, {w.rows[raw.jti].family}, LoggedOut, e.now); }
    hide RevokeFamilies;
  }

  /** What the events do to the rows, other than a refresh. */
  lemma RowsLeft(st: Settings, w: World, e: Event, w': World, t: Jti)
    requires Next(st, w, e, w') && t in w.secrets && !e.ServerRefresh? && !e.OtherRefresh?
    ensures Leaves(w, w', t)
  {
    match e
    case ServerLogin(_, _, _, _, _, _) => LoginLeaves(st, w, e, w', t); hide Next;
    case ServerLogout(_, _) => LogoutLeaves(st, w, e, w', t); hide Next;
    case OtherLogout(_, _) => LogoutLeaves(st, w, e, w', t); hide Next;
    case OtherRevocation(fs, reason, now) => RevokeLeaves(w.rows, fs, reason, now); hide RevokeFamilies;
    case Cleanup(cutoff) => DeleteLeaves(w.rows, cutoff); hide DeleteExpired;
    case _ =>
  }

  lemma SpentStays(st: Settings, w: World, e: Event, w': World, t: Jti)
    requires Next(st, w, e, w') && Spent(w, t)
    ensures Spent(w', t)
  {
    hide Next;
    if t in w.rows { SpentStaysStored(st, w, e, w', t); } else { GoneStaysGone(st, w, e, w', t); }
  }

  lemma SpentStaysStored(st: Settings, w: World, e: Event, w': World, t: Jti)
    requires Next(st, w, e, w') && Spent(w, t) && t in w.rows
    ensures Spent(w', t)
  {
    hide RowsAfterRefresh, Renewable, IsActive;
    match e
    case ServerRefresh(n, checked, issued, revoked, draw) =>
      var sent := w.submitted[n];
      SpentByRefresh(st, w.rows, w.users, w.nextId, Token(sent, w.secrets[sent]), checked, issued, revoked, draw, t);
    case OtherRefresh(raw, checked, issued, revoked, draw) =>
      SpentByRefresh(st, w.rows, w.users, w.nextId, raw, checked, issued, revoked, draw, t);
    case _ =>
      RowsLeft(st, w, e, w', t);
      hide Next;
  }

  /** A token that has been removed never comes back. */
  lemma GoneStaysGone(st: Settings, w: World, e: Event, w': World, t: Jti)
    requires Next(st, w, e, w') && t in w.secrets && t !in w.rows
    ensures t in w'.secrets && t !in w'.rows
  {
    hide RowsAfterRefresh, Renewable, IsActive, IsReuse;
    match e
    case ServerRefresh(n, checked, issued, revoked, draw) =>
      var sent := w.submitted[n];
      RefreshEffect(st, w.rows, w.users, w.nextId, Token(sent, w.secrets[sent]), checked, issued, revoked, draw);
    case OtherRefresh(raw, checked, issued, revoked, draw) =>
      RefreshEffect(st, w.rows, w.users, w.nextId, raw, checked, issued, revoked, draw);
    case _ =>
      RowsLeft(st, w, e, w', t);
      hide Next;
  }

  lemma {:induction false} SpentFrom(st: Settings, worlds: seq<World>, events: seq<Event>, i: nat, k: nat, t: Jti)
    requires IsHistory(st, worlds, events) && i <= k < |worlds| && Spent(worlds[i], t)
    ensures Spent(worlds[k], t)
    decreases k
  {
    hide Next, Spent;
    if i < k {
      SpentFrom(st, worlds, events, i, k - 1, t);
      SpentStays(st, worlds[k - 1], events[k - 1], worlds[k], t);
    }
  }

  lemma GrantSpends(st: Settings, w: World, n: nat, checked: Time, issued: Time, revoked: Time, draw: Draw, w': World)
    requires Next(st, w, ServerRefresh(n, checked, issued, revoked, draw), w') && Grants(w, n, checked)
    ensures Spent(w', w.submitted[n])
  {
    hide RowsAfterRefresh, Renewable, IsActive, IsReuse;
    var t := w.submitted[n];
    SpentByRefresh(st, w.rows, w.users, w.nextId, Token(t, w.secrets[t]), checked, issued, revoked, draw, t);
  }

  lemma SpentIsReported(st: Settings, w: World, e: Event, w': World)
    requires Next(st, w, e, w') && e.ServerRefresh? && e.n < |w.submitted|
    requires Spent(w, w.submitted[e.n]) && w.submitted[e.n] in w.rows
    ensures w'.fired && Dead(w'.rows, w.rows[w.submitted[e.n]].family)
  {
    hide Renewable, IsActive, Rotate;
  }

  /** A token that was sent twice is reported as reused, and its family revoked, if the server has renewed it
      for one of the requests by the time it comes to the other, and still stores the row. */
  lemma SecondRequestIsReported(st: Settings, worlds: seq<World>, events: seq<Event>, i: nat, k: nat)
    requires IsHistory(st, worlds, events) && i < k < |events| && events[i].ServerRefresh? && events[k].ServerRefresh?
    requires Grants(worlds[i], events[i].n, events[i].checked) && events[k].n < |worlds[k].submitted|
    requires var t := worlds[k].submitted[events[k].n]; t == worlds[i].submitted[events[i].n] && t in worlds[k].rows
    ensures var t := worlds[k].submitted[events[k].n];
      worlds[k + 1].fired && Dead(worlds[k + 1].rows, worlds[k].rows[t].family)
  {
    hide Next, Spent, Grants;
    var e := events[i];
    GrantSpends(st, worlds[i], e.n, e.checked, e.issued, e.revoked, e.draw, worlds[i + 1]);
    SpentFrom(st, worlds, events, i + 1, k, worlds[k].submitted[events[k].n]);
    SpentIsReported(st, worlds[k], events[k], worlds[k + 1]);
  }

  lemma LoggedInAndCalled(st: Settings, users: map<int, User>) returns (w0: World, w1: World, w2: World, w3: World)
    requires st.Valid()
    ensures Start(w0) && Next(st, w0, ServerLogin(7, 10, Draw(1, 11), 0, 0, []), w1)
    ensures Next(st, w1, LoginAnswered(1, 100), w2) && Next(st, w2, CallRefresh, w3)
    ensures w3 == World(Client(Some(100), Some(1), Sent(1)), map[1 := NewRow(st, 0, 1, 10, 7, 11, 0, st.absolute)], 1,
                        users, {0}, map[], {}, map[1 := 11], {10}, [1], false, false)
  {
    hide NewRow;
    w0 := World(Client(None, None, Idle), map[], 0, users, {}, map[], {}, map[], {}, [], false, false);
    w1 := w0.(rows := map[1 := NewRow(st, 0, 1, 10, 7, 11, 0, st.absolute)], nextId := 1, secrets := map[1 := 11],
              families := {10}, logins := {1});
    assert RevokeFamilies(w1.rows, {}, ConcurrencyLimit, 0) == w1.rows;
    w2 := w1.(client := Client(Some(100), Some(1), Idle), logins := {});
    w3 := w2.(client := Client(Some(100), Some(1), Sent(1)), wire := {0}, submitted := [1]);
  }

  lemma ReloadedMeanwhile(st: Settings, w: World) returns (w': World)
    requires w.client == Client(Some(100), Some(1), Sent(1))
    ensures Next(st, w, Reload, w') && w' == w.(client := Client(None, Some(1), Idle), stale := true)
  {
    w' := w.(client := Client(None, Some(1), Idle), stale := true);
  }

  lemma RenewedForNobody(st: Settings, w: World) returns (w': World)
    requires st.Valid() && w.rows.Keys == {1} && Renewable(w.rows[1], 0) && w.rows[1].secret == 11
    requires w.secrets == map[1 := 11] && w.wire == {0} && w.submitted == [1]
    requires w.rows[1].user in w.users && w.users[w.rows[1].user].active
    ensures Next(st, w, ServerRefresh(0, 0, 0, 0, Draw(2, 22)), w')
    ensures w' == w.(wire := {}, rows := w'.rows, nextId := w'.nextId, secrets := map[1 := 11, 2 := 22],
                     replies := w'.replies)
    ensures w'.rows.Keys == {1, 2} && w'.rows[1].secret == 11 && w'.rows[1].rotatedTo.Some?
  {
    w' := w.(wire := {}, rows := Rotate(st, w.rows, 1, w.nextId, 2, 22, 0, 0), nextId := w.nextId + 1,
             secrets := map[1 := 11, 2 := 22], replies := w.replies[0 := 2]);
  }

  lemma CalledAgain(st: Settings, w: World) returns (w': World)
    requires w.client == Client(None, Some(1), Idle) && w.wire == {} && w.submitted == [1]
    ensures Next(st, w, CallRefresh, w')
    ensures w' == w.(client := Client(None, Some(1), Sent(1)), wire := {1}, submitted := [1, 1], stale := false)
  {
    w' := w.(client := Client(None, Some(1), Sent(1)), wire := {1}, submitted := [1, 1], stale := false);
  }

  lemma AnsweredAsReuse(st: Settings, w: World) returns (w': World)
    requires w.rows.Keys == {1, 2} && w.rows[1].secret == 11 && w.rows[1].rotatedTo.Some?
    requires w.secrets == map[1 := 11, 2 := 22] && w.wire == {1} && w.submitted == [1, 1]
    ensures Next(st, w, ServerRefresh(1, 1, 1, 1, Draw(3, 33)), w') && w'.submitted == w.submitted && w'.fired
  {
    var rows := RowsAfterRefresh(st, w.rows, w.users, w.nextId, Token(1, 11), 1, 1, 1, Draw(3, 33));
    w' := w.(wire := {}, rows := rows, nextId := w.nextId + 1, fired := true);
    hide RowsAfterRefresh;
  }

  /** And it does happen: log in, call, reload before the answer, let the server renew the token meanwhile,
      call again. */
  lemma ReloadInFlightHappens() returns (st: Settings, worlds: seq<World>, events: seq<Event>)
    ensures IsHistory(st, worlds, events) && worlds[|events|].submitted == [1, 1] && worlds[|events|].fired
  {
    hide Next;
    st := Settings(300, 1000, 5);
    var w0, w1, w2, w3 := LoggedInAndCalled(st, map[7 := User("u", true, "p")]);
    var w4 := ReloadedMeanwhile(st, w3);
    var w5 := RenewedForNobody(st, w4);
    var w6 := CalledAgain(st, w5);
    var w7 := AnsweredAsReuse(st, w6);
    worlds := [w0, w1, w2, w3, w4, w5, w6, w7];
    events := [ServerLogin(7, 10, Draw(1, 11), 0, 0, []), LoginAnswered(1, 100), CallRefresh, Reload,
               ServerRefresh(0, 0, 0, 0, Draw(2, 22)), CallRefresh, ServerRefresh(1, 1, 1, 1, Draw(3, 33))];
  }

  // ---------- The access token ----------

  /** The tab is told the outcome of a refresh or a login, forgets its tokens, or is loaded anew. */
  predicate Renews(e: Event) { e.Answered? || e.LoginAnswered? || e.RefreshLost? || e.Forget? || e.Reload? }

  lemma AccessAfter(st: Settings, w: World, e: Event, w': World)
    requires Next(st, w, e, w') && (w.client.access.Some? ==> w.client.stored.Some?)
    ensures w'.client.access.Some? ==> w'.client.stored.Some?
    ensures e.Answered? ==> Current(w) in w.replies && w'.client.access == Some(e.access)
                            && w'.client.stored == Some(w.replies[Current(w)])
    ensures e.LoginAnswered? ==> w'.client.access == Some(e.access) && w'.client.stored == Some(e.t)
    ensures e.RefreshLost? || e.Forget? ==> w'.client.access == None && w'.client.stored == None
    ensures e.Reload? ==> w'.client.access == None && w'.client.stored == w.client.stored
    ensures !Renews(e) ==> w'.client.access == w.client.access
    ensures !Renews(e) && (w.client.access.Some? || w'.client.stored.Some?) ==> w'.client.stored == w.client.stored
  {
    if AtServer(e) {
      ServerLeavesTab(st, w, e, w');
      hide Next;
    }
  }

  /** The answer that event brings: an access token, and the refresh token that comes with it. */
  ghost predicate Brings(w: World, e: Event, access: nat, refresh: Jti) {
    || (e == Answered(access) && Current(w) in w.replies && w.replies[Current(w)] == refresh)
    || e == LoginAnswered(refresh, access)
  }

  /** Event k brought these tokens; the tab has been told nothing since, has forgotten nothing and has not been loaded,
      and the refresh token is still in store. */
  ghost predicate HeldSince(worlds: seq<World>, events: seq<Event>, k: nat, i: nat, access: nat, refresh: Jti)
    requires i < |worlds| == |events| + 1
  {
    && k < i && Brings(worlds[k], events[k], access, refresh) && worlds[i].client.stored == Some(refresh)
    && forall m | k < m < i :: !Renews(events[m])
  }

  /** In every history the tab holds an access token if and only if it has held it since an answer that brought it;
      the refresh token in store is then that of the same answer. */
  lemma {:induction false} AccessExactlyWhenAnswered(st: Settings, worlds: seq<World>, events: seq<Event>, i: nat,
                                                     access: nat)
    requires IsHistory(st, worlds, events) && i < |worlds|
    ensures worlds[i].client.access.Some? ==> worlds[i].client.stored.Some?
    ensures worlds[i].client.access == Some(access) <==>
            exists k: nat, refresh: Jti :: HeldSince(worlds, events, k, i, access, refresh)
  {
    hide Next;
    if i > 0 {
      var w, e, w' := worlds[i - 1], events[i - 1], worlds[i];
      AccessExactlyWhenAnswered(st, worlds, events, i - 1, access);
      AccessAfter(st, w, e, w');
      if w'.client.access == Some(access) {
        if Renews(e) {
          assert HeldSince(worlds, events, i - 1, i, access, w'.client.stored.value);
        } else {
          var k: nat, refresh: Jti :| HeldSince(worlds, events, k, i - 1, access, refresh);
          assert HeldSince(worlds, events, k, i, access, refresh);
        }
      }
      if k: nat, refresh: Jti :| HeldSince(worlds, events, k, i, access, refresh) {
        if !Renews(e) { assert HeldSince(worlds, events, k, i - 1, access, refresh); }
      }
    }
  }

  lemma LatchStays(st: Settings, w: World, e: Event, w': World)
    requires Next(st, w, e, w') && w.client.inflight.Latched? && !e.Reload?
    ensures w'.client.inflight.Latched? && w'.submitted == w.submitted
  {
    if AtServer(e) {
      ServerLeavesTab(st, w, e, w');
      hide Next;
    }
  }

  lemma LatchCloses(st: Settings, w: World, w': World)
    requires Next(st, w, CallRefresh, w') && w.client.stored.None? && w.client.inflight.Idle?
    ensures w'.client.inflight.Latched? && w'.submitted == w.submitted
  {
  }

  /** In every history, after a call made with nothing stored and no refresh pending, the tab sends nothing up
      to the next reload, whatever is stored in the meantime. */
  lemma {:induction false} LatchedSendsNothing(st: Settings, worlds: seq<World>, events: seq<Event>, k: nat, i: nat)
    requires IsHistory(st, worlds, events) && k < i < |worlds|
    requires events[k] == CallRefresh && worlds[k].client.stored.None? && worlds[k].client.inflight.Idle?
    requires forall j | k < j < i :: events[j] != Reload
    ensures worlds[i].client.inflight.Latched? && worlds[i].submitted == worlds[k].submitted
    decreases i
  {
    hide Next;
    if i == k + 1 {
      LatchCloses(st, worlds[k], worlds[i]);
    } else {
      LatchedSendsNothing(st, worlds, events, k, i - 1);
      LatchStays(st, worlds[i - 1], events[i - 1], worlds[i]);
    }
  }
}
