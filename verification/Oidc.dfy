/** The OpenID provider's code and refresh exchanges (server/src/hyproxy/idp/oidc/token.py,
    codes.py, refresh.py, revoke.py, authorize.py) over the session and user rows.

    A code or token is represented by the id of its row; a request reaches these
    handlers as an enabled client with the key thumbprint of a valid proof. */
module Oidc {
  import opened Prelude
  import opened Rows
  import opened RefreshFamilies
  import IdpSessions

  /** `s256` is the challenge of a verifier. */
  datatype Config = Config(sessions: IdpSessions.Config, absoluteTtl: int, codeTtl: int, s256: string -> string)

  datatype Code = Code(
    client: string, redirect: string, challenge: string, session: Id, user: Id, scope: string,
    expires: Instant, consumed: bool)

  datatype Source = ByCode(code: Id) | ByRefresh(token: Id)

  /** What an authorization granted, and to whom a family's first tokens went. */
  datatype Grant = Grant(
    at: Instant, session: Id, client: string, redirect: string, challenge: string, scope: string)

  datatype Sender = Sender(session: Id, client: string, jkt: nat, scope: string)

  /** The request tokens were handed out on, with the session row and the users as the
      request found them. A refresh presents no redirect and no verifier. */
  datatype Request = Request(client: string, jkt: nat, redirect: string, verifier: string, owner: Session,
      users: map<Id, bool>)

  /** What the handlers report: tokens handed out, a consumed code presented again, a
      used refresh token presented again. */
  datatype Entry =
    | Tokens(at: Instant, session: Id, family: Id, source: Source, request: Request)
    | CodeReplay(at: Instant, session: Id, code: Id)
    | RefreshReuse(at: Instant, session: Id, family: Id, token: Id)

  /** `users` says of each user whether it is active. `granted` and `senders` are
      history, like the log: what each code was granted for, and whom each family
      began with. */
  datatype State = State(
    now: Instant, next: Id, users: map<Id, bool>, sessions: map<Id, Session>,
    codes: map<Id, Code>, refresh: Table, log: seq<Entry>,
    granted: map<Id, Grant>, senders: map<Id, Sender>)

  const INITIAL := State(0, 0, map[], map[], map[], map[], [], map[], map[])

  // ----------------------------------------------------------- row functions

  function Killed(sessions: map<Id, Session>, id: Id): map<Id, Session> {
    if id in sessions then sessions[id := sessions[id].(revoked := true)] else sessions
  }

  function Rechecked(cfg: Config, sessions: map<Id, Session>, id: Id, ip: string, now: Instant): map<Id, Session> {
    if id in sessions then sessions[id := IdpSessions.Checked(cfg.sessions, sessions[id], ip, now, false)] else sessions
  }

  /** The session is live and its user active. */
  predicate MayIssue(cfg: Config, s: State, id: Id, ip: string) {
    id in s.sessions && IdpSessions.Admitted(cfg.sessions, s.sessions[id], ip, s.now, false)
    && s.sessions[id].user in s.users && s.users[s.sessions[id].user]
  }

  predicate Consumable(s: State, code: Id) {
    code in s.codes && !s.codes[code].consumed && s.codes[code].expires > s.now
  }

  predicate Redeems(cfg: Config, row: Code, client: string, redirect: string, verifier: string) {
    row.client == client && row.redirect == redirect && cfg.s256(verifier) == row.challenge
  }

  function Consumed(s: State, code: Id): State
    requires code in s.codes
  {
    s.(codes := s.codes[code := s.codes[code].(consumed := true)])
  }

  /** A consumed code again: the session it came from and all its refresh tokens. */
  function Replayed(s: State, code: Id): State
    requires code in s.codes
  {
    var session := s.codes[code].session;
    var e := CodeReplay(s.now, session, code);
    if session in s.sessions
    then s.(sessions := Killed(s.sessions, session), refresh := SessionRevoked(s.refresh, session), log := s.log + [e])
    else s.(log := s.log + [e])
  }

  /** A used refresh token again: its family and the session. */
  function Reused(s: State, token: Id): State
    requires token in s.refresh
  {
    var row := s.refresh[token];
    s.(refresh := FamilyRevoked(s.refresh, row.family), sessions := Killed(s.sessions, row.session),
       log := s.log + [RefreshReuse(s.now, row.session, row.family, token)])
  }

  /** A new family under a session, with the tokens it comes with. */
  function Issued(s: State, session: Id, scope: string, source: Source, r: Request): State
    requires session in s.sessions
  {
    var owner := s.sessions[session];
    var row := Refresh(session, s.next + 1, None, r.client, owner.user, r.jkt, scope, owner.absoluteExpiry, false,
        false);
    s.(refresh := s.refresh[s.next := row], next := s.next + 2,
       senders := s.senders[s.next + 1 := Sender(session, r.client, r.jkt, scope)],
       log := s.log + [Tokens(s.now, session, s.next + 1, source, r)])
  }

  function Refreshed(s: State, token: Id, r: Request): State
    requires token in s.refresh
  {
    s.(refresh := Rotated(s.refresh, token, s.next), next := s.next + 1,
       log := s.log + [Tokens(s.now, s.refresh[token].session, s.refresh[token].family, ByRefresh(token), r)])
  }

  // ------------------------------------------------------------------ handlers

  /** The exchange of a code that can be consumed: it is, whatever comes of it. */
  function Redeemed(
    cfg: Config, s: State, client: string, jkt: nat, code: Id, redirect: string, verifier: string, ip: string): State
    requires Consumable(s, code)
  {
    var row := s.codes[code];
    var spent := Consumed(s, code);
    if !Redeems(cfg, row, client, redirect, verifier) then spent
    else
      var checked := spent.(sessions := Rechecked(cfg, s.sessions, row.session, ip, s.now));
      if !MayIssue(cfg, s, row.session, ip) then checked
      else Issued(checked, row.session, row.scope, ByCode(code),
                  Request(client, jkt, redirect, verifier, s.sessions[row.session], s.users))
  }

  /** `_authorization_code_grant`; an empty form field is `None` or "". */
  function CodeGrant(cfg: Config, s: State, client: string, jkt: nat, code: Option<Id>, redirect: string,
      verifier: string, ip: string): State
  {
    if code.None? || redirect == "" || verifier == "" then s
    else if Consumable(s, code.value) then Redeemed(cfg, s, client, jkt, code.value, redirect, verifier, ip)
    else if code.value in s.codes && s.codes[code.value].consumed then Replayed(s, code.value)
    else s
  }

  /** `_refresh_grant`. */
  function RefreshGrant(cfg: Config, s: State, client: string, jkt: nat, token: Option<Id>, ip: string): State {
    if token.None? || token.value !in s.refresh then s
    else
      var row := s.refresh[token.value];
      if row.client != client then s
      else if row.used then Reused(s, token.value)
      else if row.revoked || row.expires <= s.now || row.jkt != jkt then s
      else
        var checked := s.(sessions := Rechecked(cfg, s.sessions, row.session, ip, s.now));
        if !MayIssue(cfg, s, row.session, ip) then checked
        else Refreshed(checked, token.value, Request(client, jkt, "", "", s.sessions[row.session], s.users))
  }

  /** `/oidc/revoke`: the token's family and session, for whoever holds its key. */
  function RevokeGrant(s: State, token: Id, jkt: nat): State {
    if token !in s.refresh || s.refresh[token].jkt != jkt then s
    else
      s.(refresh := FamilyRevoked(s.refresh, s.refresh[token].family),
         sessions := Killed(s.sessions, s.refresh[token].session))
  }

  /** The provider with its tables. */
  class Provider {
    var users: map<Id, bool>
    var codes: map<Id, Code>
    var next: Id
    var log: seq<Entry>
    ghost var granted: map<Id, Grant>
    ghost var senders: map<Id, Sender>
    const sessions: IdpSessions.SessionTable
    const refresh: RefreshTable
    const cfg: Config

    ghost predicate Valid()
      reads this, sessions, refresh
    {
      sessions.cfg == cfg.sessions && forall k :: k in refresh.rows ==> k < next
    }

    ghost function Snapshot(now: Instant): State
      reads this, sessions, refresh
    {
      State(now, next, users, sessions.rows, codes, refresh.rows, log, granted, senders)
    }

    constructor (cfg: Config)
      ensures Valid() && Snapshot(0) == INITIAL && fresh(sessions) && fresh(refresh) && this.cfg == cfg
    {
      this.cfg := cfg;
      users, codes, next, log := map[], map[], 0, [];
      granted, senders := map[], map[];
      sessions := new IdpSessions.SessionTable(cfg.sessions);
      refresh := new RefreshTable();
    }

    /** One conditional update: the row on its first valid use. */
    method ConsumeCode(code: Id, now: Instant) returns (row: Option<Code>)
      modifies this`codes
      ensures row.Some? <==> code in old(codes) && !old(codes)[code].consumed && old(codes)[code].expires > now
      ensures row.Some? ==> row.value == old(codes)[code].(consumed := true)
      ensures codes == if row.Some? then old(codes)[code := row.value] else old(codes)
    {
      if code !in codes || codes[code].consumed || codes[code].expires <= now { return None; }
      codes := codes[code := codes[code].(consumed := true)];
      return Some(codes[code]);
    }

    method RevokeSession(id: Id)
      modifies sessions
      ensures sessions.rows == Killed(old(sessions.rows), id)
    {
      if id in sessions.rows { sessions.Revoke(id); }
    }

    /** `_live_session` and the user check behind it. */
    method LiveOwner(id: Id, ip: string, now: Instant) returns (ok: bool)
      requires Valid()
      modifies sessions
      ensures ok == MayIssue(cfg, old(Snapshot(now)), id, ip)
      ensures sessions.rows == Rechecked(cfg, old(sessions.rows), id, ip, now)
    {
      if id !in sessions.rows { return false; }
      var live := sessions.CheckLiveness(id, ip, now, false);
      if !live { return false; }
      var user := sessions.rows[id].user;
      return user in users && users[user];
    }

    method ReplayCode(code: Id, now: Instant)
      requires Valid() && code in codes
      modifies this`log, sessions, refresh
      ensures Valid() && Snapshot(now) == Replayed(old(Snapshot(now)), code)
    {
      var session := codes[code].session;
      if session in sessions.rows {
        refresh.RevokeForSession(session);
        RevokeSession(session);
      }
      log := log + [CodeReplay(now, session, code)];
    }

    /** The first token of a new family, handed out for a code. */
    method Issue(session: Id, scope: string, source: Source, r: Request, now: Instant) returns (id: Id)
      requires Valid() && session in sessions.rows
      modifies this, refresh
      ensures Valid() && Snapshot(now) == Issued(old(Snapshot(now)), session, scope, source, r)
      ensures id == old(next) < next && id in refresh.rows
    {
      refresh.IssueFamily(next, next + 1, session, sessions.rows[session], r.client, scope, r.jkt);
      senders := senders[next + 1 := Sender(session, r.client, r.jkt, scope)];
      log := log + [Tokens(now, session, next + 1, source, r)];
      id := next;
      next := next + 2;
    }

    method AuthorizationCodeGrant(client: string, jkt: nat, code: Option<Id>, redirect: string, verifier: string,
        ip: string, now: Instant)
      returns (issued: Option<Id>)
      requires Valid()
      modifies this, sessions, refresh
      ensures Valid() && Snapshot(now) == CodeGrant(cfg, old(Snapshot(now)), client, jkt, code, redirect, verifier, ip)
      ensures issued.Some? <==> next > old(next)
      ensures issued.Some? ==> issued.value in refresh.rows && issued.value !in old(refresh.rows)
    {
      if code.None? || redirect == "" || verifier == "" { return None; }
      var row := ConsumeCode(code.value, now);
      if row.None? {
        if code.value in codes && codes[code.value].consumed { ReplayCode(code.value, now); }
        return None;
      }
      if row.value.client != client { return None; }
      if row.value.redirect != redirect { return None; }
      if cfg.s256(verifier) != row.value.challenge { return None; }
      var owners := sessions.rows;
      var ok := LiveOwner(row.value.session, ip, now);
      if !ok { return None; }
      var id := Issue(row.value.session, row.value.scope, ByCode(code.value),
                      Request(client, jkt, redirect, verifier, owners[row.value.session], users), now);
      return Some(id);
    }

    method RefreshTokenGrant(client: string, jkt: nat, token: Option<Id>, ip: string, now: Instant)
      returns (issued: Option<Id>)
      requires Valid()
      modifies this, sessions, refresh
      ensures Valid() && Snapshot(now) == RefreshGrant(cfg, old(Snapshot(now)), client, jkt, token, ip)
      ensures issued.Some? <==> next > old(next)
      ensures issued.Some? ==> issued.value in refresh.rows && issued.value !in old(refresh.rows)
    {
      if token.None? || token.value !in refresh.rows { return None; }
      var row := refresh.rows[token.value];
      if row.client != client { return None; }
      if row.used {
        refresh.RevokeFamily(row.family);
        RevokeSession(row.session);
        log := log + [RefreshReuse(now, row.session, row.family, token.value)];
        return None;
      }
      if row.revoked || row.expires <= now { return None; }
      if row.jkt != jkt { return None; }
      var owners := sessions.rows;
      var ok := LiveOwner(row.session, ip, now);
      if !ok { return None; }
      refresh.Rotate(token.value, next);
      log := log + [Tokens(now, row.session, row.family, ByRefresh(token.value),
                           Request(client, jkt, "", "", owners[row.session], users))];
      issued := Some(next);
      next := next + 1;
    }

    method Revoke(token: Id, jkt: nat, now: Instant)
      requires Valid()
      modifies sessions, refresh
      ensures Valid() && Snapshot(now) == RevokeGrant(old(Snapshot(now)), token, jkt)
    {
      if token in refresh.rows && refresh.rows[token].jkt == jkt {
        var row := refresh.rows[token];
        refresh.RevokeFamily(row.family);
        RevokeSession(row.session);
      }
    }
  }

  // ------------------------------------------------------ the rest of the system

  /** `/oidc/authorize` with a session cookie, past its parameter checks. */
  function Authorize(cfg: Config, s: State, cookie: Cookie, client: string, redirect: string, challenge: string,
      scope: string, ip: string): State
  {
    if cookie.id !in s.sessions || s.sessions[cookie.id].secret != cookie.secret then s
    else
      var checked := s.(sessions := Rechecked(cfg, s.sessions, cookie.id, ip, s.now));
      if !IdpSessions.Alive(cfg.sessions, s.sessions[cookie.id], s.now) then checked
      else
        var row := Code(client, redirect, challenge, cookie.id, s.sessions[cookie.id].user, scope,
            s.now + cfg.codeTtl * SECOND, false);
        checked.(codes := s.codes[s.next := row], next := s.next + 1,
                 granted := s.granted[s.next := Grant(s.now, cookie.id, client, redirect, challenge, scope)])
  }

  function Logout(cfg: Config, s: State, cookie: Cookie, ip: string): State {
    if cookie.id !in s.sessions || s.sessions[cookie.id].secret != cookie.secret then s
    else
      var rows := Rechecked(cfg, s.sessions, cookie.id, ip, s.now);
      s.(sessions := if IdpSessions.Alive(cfg.sessions, s.sessions[cookie.id], s.now) then Killed(rows, cookie.id)
          else rows)
  }

  predicate Targeted(s: State, user: Id, except: Option<Id>, id: Id) {
    id in s.sessions && s.sessions[id].user == user && !s.sessions[id].revoked && except != Some(id)
  }

  /** `_revoke_user_sessions`. */
  function RevokeUser(s: State, user: Id, except: Option<Id>): State {
    s.(sessions := map k | k in s.sessions ::
         if Targeted(s, user, except, k) then s.sessions[k].(revoked := true) else s.sessions[k],
       refresh := map k | k in s.refresh ::
         if Targeted(s, user, except, s.refresh[k].session) then s.refresh[k].(revoked := true) else s.refresh[k])
  }

  predicate Owned(s: State, user: Id, owner: Id, session: Id) {
    owner == user || (session in s.sessions && s.sessions[session].user == user)
  }

  /** Deleting a user cascades to sessions, codes and refresh tokens. */
  function DeleteUser(s: State, user: Id): State {
    s.(users := s.users - {user},
       sessions := map k | k in s.sessions && s.sessions[k].user != user :: s.sessions[k],
       codes := map k | k in s.codes && !Owned(s, user, s.codes[k].user, s.codes[k].session) :: s.codes[k],
       refresh := map k | k in s.refresh && !Owned(s, user, s.refresh[k].user, s.refresh[k].session) :: s.refresh[k])
  }

  function Login(cfg: Config, s: State, user: Id, ip: string, tier: bool, amr: set<Factor>): State {
    var row := Session(user, s.next + 1, ip, tier, amr, s.now, s.now, s.now + cfg.absoluteTtl * SECOND, false, false);
    s.(sessions := s.sessions[s.next := row], next := s.next + 2)
  }

  /** A liveness check elsewhere, when its verdict is committed. */
  function CheckElsewhere(cfg: Config, s: State, id: Id, ip: string, enforceIp: bool): State {
    if id in s.sessions
    then s.(sessions := s.sessions[id := IdpSessions.Checked(cfg.sessions, s.sessions[id], ip, s.now, enforceIp)])
    else s
  }

  datatype Action =
    | ExchangeCode(client: string, jkt: nat, presented: Option<Id>, redirect: string, verifier: string, ip: string)
    | UseRefresh(client: string, jkt: nat, presented: Option<Id>, ip: string)
    | RevokeToken(token: Id, jkt: nat)
    | AuthorizeClient(cookie: Cookie, client: string, redirect: string, challenge: string, scope: string, ip: string)
    | EndSession(cookie: Cookie, ip: string)
    | SignIn(user: Id, ip: string, tier: bool, amr: set<Factor>)
    | CheckSession(session: Id, ip: string, enforceIp: bool)
    | NewSecret(session: Id)
    | SetUser(user: Id, active: bool)
    | RevokeSessions(user: Id, except: Option<Id>)
    | RemoveUser(user: Id)

  datatype Event = Event(dt: nat, action: Action)

  function Apply(cfg: Config, s: State, action: Action): State {
    match action
    case ExchangeCode(client, jkt, presented, redirect, verifier, ip) =>
      CodeGrant(cfg, s, client, jkt, presented, redirect, verifier, ip)
    case UseRefresh(client, jkt, presented, ip) => RefreshGrant(cfg, s, client, jkt, presented, ip)
    case RevokeToken(token, jkt) => RevokeGrant(s, token, jkt)
    case AuthorizeClient(cookie, client, redirect, challenge, scope, ip) =>
      Authorize(cfg, s, cookie, client, redirect, challenge, scope, ip)
    case EndSession(cookie, ip) => Logout(cfg, s, cookie, ip)
    case SignIn(user, ip, tier, amr) => Login(cfg, s, user, ip, tier, amr)
    case CheckSession(session, ip, enforceIp) => CheckElsewhere(cfg, s, session, ip, enforceIp)
    case NewSecret(session) =>
      if session in s.sessions
      then s.(sessions := s.sessions[session := s.sessions[session].(secret := s.next)], next := s.next + 1)
      else s
    case SetUser(user, active) =>
      var t := s.(users := s.users[user := active]);
      if user in s.users && s.users[user] && !active then RevokeUser(t, user, None) else t
    case RevokeSessions(user, except) => RevokeUser(s, user, except)
    case RemoveUser(user) => DeleteUser(s, user)
  }

  function Step(cfg: Config, s: State, e: Event): State {
    Apply(cfg, s.(now := s.now + e.dt), e.action)
  }

  function Run(cfg: Config, s: State, events: seq<Event>): State
    decreases |events|
  {
    if events == [] then s else Run(cfg, Step(cfg, s, events[0]), events[1..])
  }

  // ------------------------------------------------------------- invariants

  predicate Alarm(e: Entry) { e.CodeReplay? || e.RefreshReuse? }

  predicate SessionDead(s: State, id: Id) { id in s.sessions ==> s.sessions[id].revoked }

  predicate RefreshSane(s: State, id: Id)
    requires id in s.refresh
  {
    var r := s.refresh[id];
    id < s.next && r.family < s.next && r.session in s.sessions
    && r.user == s.sessions[r.session].user && r.expires == s.sessions[r.session].absoluteExpiry
  }

  ghost predicate RowsSane(s: State) {
    && (forall id :: id in s.sessions ==> id < s.next)
    && (forall id :: id in s.codes ==> id < s.next && s.codes[id].session in s.sessions)
    && (forall id :: id in s.refresh ==> RefreshSane(s, id))
  }

  predicate EntrySane(s: State, e: Entry) {
    e.session < s.next && (!e.CodeReplay? ==> e.family < s.next) && (Alarm(e) ==> SessionDead(s, e.session))
    && (e.Tokens? ==> SourceSpent(s, e.source) && if e.source.ByCode? then e.source.code < s.next
        else e.source.token < s.next)
  }

  predicate SourceSpent(s: State, source: Source) {
    match source
    case ByCode(c) => c in s.codes ==> s.codes[c].consumed
    case ByRefresh(t) => t in s.refresh ==> s.refresh[t].used
  }

  ghost predicate LogSane(s: State) {
    forall k :: 0 <= k < |s.log| ==> EntrySane(s, s.log[k])
  }

  /** A family belongs to one session, in the log and in the table. */
  ghost predicate FamiliesKnown(s: State) {
    && (forall id, k :: id in s.refresh && 0 <= k < |s.log| ==>
        Agrees(s.log[k], s.refresh[id].family, s.refresh[id].session))
    && (forall i, k :: 0 <= i < |s.log| && 0 <= k < |s.log| && !s.log[i].CodeReplay? ==>
          Agrees(s.log[k], s.log[i].family, s.log[i].session))
  }

  predicate Agrees(e: Entry, family: Id, session: Id) {
    !e.CodeReplay? && e.family == family ==> e.session == session
  }

  /** The tokens an alarm is about: all of the session's, or the family's. */
  predicate Covers(e: Entry, row: Refresh) {
    (e.CodeReplay? && row.session == e.session) || (e.RefreshReuse? && row.family == e.family)
  }

  ghost predicate AlarmsRevoke(s: State) {
    forall id, k :: id in s.refresh && 0 <= k < |s.log| && Covers(s.log[k], s.refresh[id]) ==> s.refresh[id].revoked
  }

  /** The order of the log: no tokens for a session after an alarm about it, and no
      code or refresh token exchanged twice. */
  predicate Follows(first: Entry, second: Entry) {
    second.Tokens? ==>
      && (Alarm(first) ==> first.session != second.session)
      && (first.Tokens? ==> first.source != second.source)
  }

  ghost predicate Ordered(log: seq<Entry>) {
    forall i, j :: 0 <= i < j < |log| ==> Follows(log[i], log[j])
  }

  ghost predicate Inv(s: State) {
    RowsSane(s) && LogSane(s) && FamiliesKnown(s) && AlarmsRevoke(s) && Ordered(s.log) && WellFormed(s.refresh)
  }

  // --------------------------------------- what most steps do: rows get weaker

  /** Sessions only lose life, codes are only spent, refresh rows only revoked. */
  ghost predicate StateWeaker(s: State, t: State) {
    && t.log == s.log && t.next >= s.next
    && (forall id :: id in t.sessions ==>
          id in s.sessions && t.sessions[id].user == s.sessions[id].user
          && t.sessions[id].absoluteExpiry == s.sessions[id].absoluteExpiry
              && (s.sessions[id].revoked ==> t.sessions[id].revoked))
    && (forall id :: id in t.codes ==>
          id in s.codes && t.codes[id].session == s.codes[id].session && (s.codes[id].consumed ==> t.codes[id].consumed)
          && t.codes[id].session in t.sessions)
    && (forall id :: id in t.refresh ==> t.refresh[id].session in t.sessions)
    && Weaker(s.refresh, t.refresh)
  }

  lemma WeakerKeepsEntries(s: State, t: State)
    requires LogSane(s) && StateWeaker(s, t)
    ensures LogSane(t)
  {
    forall k | 0 <= k < |t.log| ensures EntrySane(t, t.log[k]) {
      assert EntrySane(s, s.log[k]);
    }
  }

  lemma WeakerKeepsRows(s: State, t: State)
    requires RowsSane(s) && StateWeaker(s, t)
    ensures RowsSane(t)
  {
    forall id | id in t.refresh ensures RefreshSane(t, id) {
      assert RefreshSane(s, id);
    }
  }

  lemma WeakerKeepsFamilies(s: State, t: State)
    requires FamiliesKnown(s) && StateWeaker(s, t)
    ensures FamiliesKnown(t)
  {
    forall id, k | id in t.refresh && 0 <= k < |t.log|
      ensures Agrees(t.log[k], t.refresh[id].family, t.refresh[id].session)
    {
      assert Agrees(s.log[k], s.refresh[id].family, s.refresh[id].session);
    }
  }

  lemma WeakerKeepsAlarms(s: State, t: State)
    requires AlarmsRevoke(s) && StateWeaker(s, t)
    ensures AlarmsRevoke(t)
  {
    forall id, k | id in t.refresh && 0 <= k < |t.log| && Covers(t.log[k], t.refresh[id])
      ensures t.refresh[id].revoked
    {
      assert Covers(s.log[k], s.refresh[id]);
    }
  }

  lemma WeakerKeepsInv(s: State, t: State)
    requires Inv(s) && StateWeaker(s, t)
    ensures Inv(t)
  {
    WeakerKeepsAlarms(s, t);
    WeakerKeepsRows(s, t);
    WeakerKeepsEntries(s, t);
    WeakerKeepsFamilies(s, t);
    WeakerKeepsForm(s.refresh, t.refresh);
  }

  lemma RevokedRowsAreWeaker(s: Table, t: Table)
    requires t.Keys == s.Keys
    requires forall id :: id in s ==> t[id] == s[id] || t[id] == s[id].(revoked := true)
    ensures Weaker(s, t)
  {
  }

  /** No row added, removed or spent; sessions and refresh rows possibly revoked. */
  lemma RevocationKeepsInv(s: State, t: State)
    requires Inv(s) && t.log == s.log && t.next >= s.next && t.codes == s.codes
    requires t.sessions.Keys == s.sessions.Keys && t.refresh.Keys == s.refresh.Keys
    requires forall id :: id in s.sessions ==>
               t.sessions[id].user == s.sessions[id].user
                   && t.sessions[id].absoluteExpiry == s.sessions[id].absoluteExpiry
               && (s.sessions[id].revoked ==> t.sessions[id].revoked)
    requires forall id :: id in s.refresh ==>
        t.refresh[id] == s.refresh[id] || t.refresh[id] == s.refresh[id].(revoked := true)
    ensures Inv(t)
  {
    RevokedRowsAreWeaker(s.refresh, t.refresh);
    forall id | id in t.refresh ensures t.refresh[id].session in t.sessions { assert RefreshSane(s, id); }
    WeakerKeepsInv(s, t);
  }

  // ----------------------------------------------- what one log entry must meet

  ghost predicate Consistent(s: State, e: Entry) {
    && (forall id :: id in s.refresh && !e.CodeReplay? ==>
        (s.refresh[id].family == e.family ==> s.refresh[id].session == e.session))
    && (forall k :: 0 <= k < |s.log| ==>
          Follows(s.log[k], e) && (!e.CodeReplay? ==> Agrees(s.log[k], e.family, e.session)))
    && (forall id :: id in s.refresh && Covers(e, s.refresh[id]) ==> s.refresh[id].revoked)
  }

  lemma LogKeepsInv(s: State, e: Entry)
    requires Inv(s) && EntrySane(s, e) && Consistent(s, e)
    ensures Inv(s.(log := s.log + [e]))
  {
    var t := s.(log := s.log + [e]);
    LogKeepsFamilies(s, e);
    LogKeepsAlarms(s, e);
    forall k | 0 <= k < |t.log| ensures EntrySane(t, t.log[k]) {
      assert k < |s.log| ==> EntrySane(s, s.log[k]);
    }
    forall i, j | 0 <= i < j < |t.log| ensures Follows(t.log[i], t.log[j]) {
      assert t.log[i] == s.log[i];
      if j < |s.log| { assert Follows(s.log[i], s.log[j]); }
    }
    forall id | id in t.refresh ensures RefreshSane(t, id) {
      assert RefreshSane(s, id);
    }
  }

  lemma LogKeepsAlarms(s: State, e: Entry)
    requires AlarmsRevoke(s) && Consistent(s, e)
    ensures AlarmsRevoke(s.(log := s.log + [e]))
  {
    var t := s.(log := s.log + [e]);
    forall id, k | id in t.refresh && 0 <= k < |t.log| && Covers(t.log[k], t.refresh[id])
      ensures t.refresh[id].revoked
    {
      if k < |s.log| { assert Covers(s.log[k], s.refresh[id]); }
    }
  }

  lemma LogKeepsFamilies(s: State, e: Entry)
    requires FamiliesKnown(s) && Consistent(s, e)
    ensures FamiliesKnown(s.(log := s.log + [e]))
  {
    var t := s.(log := s.log + [e]);
    forall id, k | id in t.refresh && 0 <= k < |t.log|
      ensures Agrees(t.log[k], t.refresh[id].family, t.refresh[id].session)
    {
      if k < |s.log| { assert Agrees(s.log[k], s.refresh[id].family, s.refresh[id].session); }
    }
    forall i, k | 0 <= i < |t.log| && 0 <= k < |t.log| && !t.log[i].CodeReplay?
      ensures Agrees(t.log[k], t.log[i].family, t.log[i].session)
    {
      if i < |s.log| && k < |s.log| { assert Agrees(s.log[k], s.log[i].family, s.log[i].session); }
    }
  }

  // ---------------------------------------------------------------- the two grants

  lemma SessionRevocationKeepsInv(s: State, session: Id, t: State)
    requires Inv(s) && t == s.(sessions := Killed(s.sessions, session), refresh := SessionRevoked(s.refresh, session))
    ensures Inv(t)
  {
    RevocationKeepsInv(s, t);
  }

  lemma FamilyRevocationKeepsInv(s: State, family: Id, session: Id, t: State)
    requires Inv(s) && t == s.(sessions := Killed(s.sessions, session), refresh := FamilyRevoked(s.refresh, family))
    ensures Inv(t)
  {
    RevocationKeepsInv(s, t);
  }

  lemma ReplayKeepsInv(s: State, code: Id)
    requires Inv(s) && code in s.codes
    ensures Inv(Replayed(s, code))
  {
    var session := s.codes[code].session;
    var t := s.(sessions := Killed(s.sessions, session), refresh := SessionRevoked(s.refresh, session));
    SessionRevocationKeepsInv(s, session, t);
    var e := CodeReplay(s.now, session, code);
    LogKeepsInv(t, e);
    assert Replayed(s, code) == t.(log := t.log + [e]);
  }

  lemma ReuseKeepsInv(s: State, token: Id)
    requires Inv(s) && token in s.refresh
    ensures Inv(Reused(s, token))
  {
    var row := s.refresh[token];
    var t := s.(refresh := FamilyRevoked(s.refresh, row.family), sessions := Killed(s.sessions, row.session));
    FamilyRevocationKeepsInv(s, row.family, row.session, t);
    var e := RefreshReuse(s.now, row.session, row.family, token);
    assert token in t.refresh && t.refresh[token].family == row.family && t.refresh[token].session == row.session;
    TableEntryConsistent(t, token, e);
    LogKeepsInv(t, e);
    assert Reused(s, token) == t.(log := t.log + [e]);
  }

  /** An entry about a row's own family and session fits the table and the log. */
  lemma TableEntryConsistent(s: State, token: Id, e: Entry)
    requires Inv(s) && token in s.refresh
    requires !e.CodeReplay? && e.family == s.refresh[token].family && e.session == s.refresh[token].session
    requires forall k :: 0 <= k < |s.log| ==> Follows(s.log[k], e)
    requires forall id :: id in s.refresh && Covers(e, s.refresh[id]) ==> s.refresh[id].revoked
    ensures Consistent(s, e) && e.session < s.next && e.family < s.next
  {
    assert RefreshSane(s, token);
    forall id | id in s.refresh && s.refresh[id].family == e.family ensures s.refresh[id].session == e.session {
      assert SameGrant(s.refresh[id], s.refresh[token]);
    }
    forall k | 0 <= k < |s.log| ensures Agrees(s.log[k], e.family, e.session) {
      assert Agrees(s.log[k], s.refresh[token].family, s.refresh[token].session);
    }
  }

  /** Tokens for a session that is not dead, from a source not spent before, follow
      everything in the log. */
  lemma TokensFollow(s: State, before: State, e: Entry)
    requires LogSane(s) && LogSane(before) && before.log == s.log
    requires e.Tokens? && !SessionDead(s, e.session) && !SourceSpent(before, e.source)
    ensures forall k :: 0 <= k < |s.log| ==> Follows(s.log[k], e)
  {
    forall k | 0 <= k < |s.log| ensures Follows(s.log[k], e) {
      assert EntrySane(s, s.log[k]) && EntrySane(before, before.log[k]);
    }
  }

  /** A live session has no alarm about it, so its rows are not covered by any. */
  lemma LiveIsUncovered(s: State, row: Refresh, k: nat)
    requires LogSane(s) && k < |s.log| && !SessionDead(s, row.session)
    requires s.log[k].RefreshReuse? && s.log[k].family == row.family ==> s.log[k].session == row.session
    ensures !Covers(s.log[k], row)
  {
    assert EntrySane(s, s.log[k]);
  }

  lemma NewRowKeepsEntries(s: State, t: State)
    requires LogSane(s) && t.log == s.log && t.next >= s.next && t.sessions == s.sessions && t.codes == s.codes
    requires forall id :: id in t.refresh && id < s.next ==>
        id in s.refresh && (s.refresh[id].used ==> t.refresh[id].used)
    ensures LogSane(t)
  {
    forall k | 0 <= k < |t.log| ensures EntrySane(t, t.log[k]) { assert EntrySane(s, s.log[k]); }
  }

  lemma FamilyKeepsHistory(s: State, row: Refresh, t: State)
    requires Inv(s) && !SessionDead(s, row.session) && row.family == s.next + 1
    requires t == s.(refresh := s.refresh[s.next := row], next := s.next + 2, senders := t.senders)
    ensures FamiliesKnown(t) && AlarmsRevoke(t)
  {
    forall id, k | id in t.refresh && 0 <= k < |t.log|
      ensures Agrees(t.log[k], t.refresh[id].family, t.refresh[id].session)
      ensures Covers(t.log[k], t.refresh[id]) ==> t.refresh[id].revoked
    {
      assert EntrySane(s, s.log[k]);
      if id == s.next { LiveIsUncovered(s, row, k); }
    }
  }

  lemma FamilyKeepsInv(s: State, session: Id, row: Refresh, t: State)
    requires Inv(s) && session in s.sessions && row.session == session && row.family == s.next + 1 && row.parent == None
    requires row.user == s.sessions[session].user && row.expires == s.sessions[session].absoluteExpiry
    requires !SessionDead(s, session)
    requires t == s.(refresh := s.refresh[s.next := row], next := s.next + 2, senders := t.senders)
    ensures Inv(t)
  {
    forall id | id in s.refresh ensures id < s.next && s.refresh[id].family < s.next { assert RefreshSane(s, id); }
    IssueKeepsForm(s.refresh, s.next, row);
    forall id | id in t.refresh ensures RefreshSane(t, id) {
      if id != s.next { assert RefreshSane(s, id); }
    }
    NewRowKeepsEntries(s, t);
    FamilyKeepsHistory(s, row, t);
  }

  lemma IssueKeepsInv(s: State, before: State, session: Id, scope: string, source: Source, r: Request)
    requires Inv(s) && Inv(before) && before.log == s.log && session in s.sessions && !s.sessions[session].revoked
    requires source.ByCode? && source.code < s.next && SourceSpent(s, source) && !SourceSpent(before, source)
    ensures Inv(Issued(s, session, scope, source, r))
  {
    var t := Issued(s, session, scope, source, r);
    var mid := s.(refresh := t.refresh, next := t.next, senders := t.senders);
    FamilyKeepsInv(s, session, t.refresh[s.next], mid);
    var e := Tokens(s.now, session, s.next + 1, source, r);
    TokensFollow(mid, before, e);
    TableEntryConsistent(mid, s.next, e);
    LogKeepsInv(mid, e);
    assert t == mid.(log := mid.log + [e]);
  }

  lemma RotationKeepsHistory(s: State, token: Id, t: State)
    requires Inv(s) && token in s.refresh && !SessionDead(s, s.refresh[token].session)
    requires t == s.(refresh := Rotated(s.refresh, token, s.next), next := s.next + 1)
    ensures FamiliesKnown(t) && AlarmsRevoke(t)
  {
    forall id, k | id in t.refresh && 0 <= k < |t.log|
      ensures Agrees(t.log[k], t.refresh[id].family, t.refresh[id].session)
      ensures Covers(t.log[k], t.refresh[id]) ==> t.refresh[id].revoked
    {
      var origin := if id == s.next then token else id;
      assert Agrees(s.log[k], s.refresh[origin].family, s.refresh[origin].session);
      assert Covers(s.log[k], s.refresh[origin]) ==> s.refresh[origin].revoked;
      if origin == token { LiveIsUncovered(s, s.refresh[token], k); }
    }
  }

  lemma RotationKeepsRows(s: State, token: Id, t: State)
    requires RowsSane(s) && token in s.refresh
    requires t == s.(refresh := Rotated(s.refresh, token, s.next), next := s.next + 1)
    ensures RowsSane(t)
  {
    forall id | id in t.refresh ensures RefreshSane(t, id) {
      assert RefreshSane(s, if id == s.next then token else id);
    }
  }

  lemma RotationKeepsInv(s: State, token: Id, t: State)
    requires Inv(s) && token in s.refresh && !s.refresh[token].used && !SessionDead(s, s.refresh[token].session)
    requires t == s.(refresh := Rotated(s.refresh, token, s.next), next := s.next + 1)
    ensures Inv(t)
  {
    forall id | id in s.refresh ensures id < s.next { assert RefreshSane(s, id); }
    RotationKeepsForm(s.refresh, token, s.next);
    RotationKeepsRows(s, token, t);
    NewRowKeepsEntries(s, t);
    RotationKeepsHistory(s, token, t);
  }

  lemma RefreshEntryFits(s: State, token: Id, mid: State, e: Entry)
    requires Inv(s) && token in s.refresh && !s.refresh[token].used && !SessionDead(s, s.refresh[token].session)
    requires mid == s.(refresh := Rotated(s.refresh, token, s.next), next := s.next + 1) && Inv(mid)
    requires e.Tokens? && e == Tokens(s.now, s.refresh[token].session, s.refresh[token].family, ByRefresh(token),
        e.request)
    ensures Consistent(mid, e) && EntrySane(mid, e)
  {
    assert RefreshSane(s, token);
    assert mid.refresh[token] == s.refresh[token].(used := true);
    TokensFollow(mid, s, e);
    TableEntryConsistent(mid, token, e);
  }

  lemma RefreshKeepsInv(s: State, token: Id, r: Request)
    requires Inv(s) && token in s.refresh && !s.refresh[token].used && !SessionDead(s, s.refresh[token].session)
    ensures Inv(Refreshed(s, token, r))
  {
    var t := Refreshed(s, token, r);
    var mid := s.(refresh := t.refresh, next := t.next);
    var e := t.log[|s.log|];
    RotationKeepsInv(s, token, mid);
    RefreshEntryFits(s, token, mid, e);
    LogKeepsInv(mid, e);
    assert t == mid.(log := mid.log + [e]);
  }

  lemma SpentKeepsInv(s: State, code: Id)
    requires Inv(s) && code in s.codes
    ensures Inv(Consumed(s, code))
  {
    forall id | id in s.refresh ensures s.refresh[id].session in s.sessions { assert RefreshSane(s, id); }
    WeakerKeepsInv(s, Consumed(s, code));
  }

  lemma RedeemedKeepsInv(
    cfg: Config, s: State, client: string, jkt: nat, code: Id, redirect: string, verifier: string, ip: string)
    requires Inv(s) && Consumable(s, code)
    ensures Inv(Redeemed(cfg, s, client, jkt, code, redirect, verifier, ip))
  {
    var row := s.codes[code];
    var spent := Consumed(s, code);
    SpentKeepsInv(s, code);
    var checked := spent.(sessions := Rechecked(cfg, s.sessions, row.session, ip, s.now));
    RevocationKeepsInv(spent, checked);
    if MayIssue(cfg, s, row.session, ip) {
      IssueKeepsInv(checked, s, row.session, row.scope, ByCode(code),
                    Request(client, jkt, redirect, verifier, s.sessions[row.session], s.users));
    }
  }

  lemma CodeGrantKeepsInv(cfg: Config, s: State, client: string, jkt: nat, code: Option<Id>, redirect: string,
      verifier: string, ip: string)
    requires Inv(s)
    ensures Inv(CodeGrant(cfg, s, client, jkt, code, redirect, verifier, ip))
  {
    if code.Some? && redirect != "" && verifier != "" && code.value in s.codes {
      if Consumable(s, code.value) {
        RedeemedKeepsInv(cfg, s, client, jkt, code.value, redirect, verifier, ip);
      } else if s.codes[code.value].consumed {
        ReplayKeepsInv(s, code.value);
      }
    }
  }

  lemma LiveRefreshKeepsInv(cfg: Config, s: State, token: Id, ip: string, r: Request)
    requires Inv(s) && token in s.refresh && !s.refresh[token].used
    ensures
      var checked := s.(sessions := Rechecked(cfg, s.sessions, s.refresh[token].session, ip, s.now));
      Inv(checked) && (MayIssue(cfg, s, s.refresh[token].session, ip) ==> Inv(Refreshed(checked, token, r)))
  {
    var session := s.refresh[token].session;
    var checked := s.(sessions := Rechecked(cfg, s.sessions, session, ip, s.now));
    RevocationKeepsInv(s, checked);
    if MayIssue(cfg, s, session, ip) { RefreshKeepsInv(checked, token, r); }
  }

  lemma RefreshGrantKeepsInv(cfg: Config, s: State, client: string, jkt: nat, token: Option<Id>, ip: string)
    requires Inv(s)
    ensures Inv(RefreshGrant(cfg, s, client, jkt, token, ip))
  {
    if token.Some? && token.value in s.refresh {
      if s.refresh[token.value].used {
        ReuseKeepsInv(s, token.value);
      } else {
        var session := s.refresh[token.value].session;
        if session in s.sessions {
          LiveRefreshKeepsInv(cfg, s, token.value, ip, Request(client, jkt, "", "", s.sessions[session], s.users));
        }
      }
    }
  }

  // ------------------------------------------------------------- every other step

  lemma RevokeUserKeepsInv(s: State, user: Id, except: Option<Id>, t: State)
    requires Inv(s) && t == RevokeUser(s, user, except)
    ensures Inv(t)
  {
    RevocationKeepsInv(s, t);
  }

  lemma DeleteUserKeepsInv(s: State, user: Id)
    requires Inv(s)
    ensures Inv(DeleteUser(s, user))
  {
    var t := DeleteUser(s, user);
    forall id | id in s.refresh ensures s.refresh[id].session in s.sessions { assert RefreshSane(s, id); }
    forall a, b | a in t.refresh && b in s.refresh && s.refresh[a].family == s.refresh[b].family
      ensures b in t.refresh
    {
      assert SameGrant(s.refresh[a], s.refresh[b]);
    }
    WeakerKeepsInv(s, t);
  }

  lemma AuthorizeKeepsInv(cfg: Config, s: State, cookie: Cookie, client: string, redirect: string, challenge: string,
      scope: string, ip: string)
    requires Inv(s)
    ensures Inv(Authorize(cfg, s, cookie, client, redirect, challenge, scope, ip))
  {
    if cookie.id in s.sessions {
      var checked := s.(sessions := Rechecked(cfg, s.sessions, cookie.id, ip, s.now));
      RevocationKeepsInv(s, checked);
      var t := Authorize(cfg, s, cookie, client, redirect, challenge, scope, ip);
      if t.next != s.next { RowAddedKeepsInv(checked, t); }
    }
  }

  /** A fresh session or code row, with nothing logged or issued. */
  lemma RowAddedKeepsInv(s: State, t: State)
    requires Inv(s) && t.log == s.log && t.refresh == s.refresh && t.next > s.next
    requires (t.sessions == s.sessions && s.next in t.codes && t.codes[s.next].session in s.sessions
              && t.codes == s.codes[s.next := t.codes[s.next]])
             || (t.codes == s.codes && s.next in t.sessions && t.sessions == s.sessions[s.next := t.sessions[s.next]])
    ensures Inv(t)
  {
    forall id | id in t.refresh ensures RefreshSane(t, id) { assert RefreshSane(s, id); }
    forall k | 0 <= k < |t.log| ensures EntrySane(t, t.log[k]) { assert EntrySane(s, s.log[k]); }
  }

  /** One session row changed, still its user's, with its bound and no life regained. */
  lemma SessionRowKeepsInv(s: State, id: Id, row: Session, t: State)
    requires Inv(s) && id in s.sessions && t.log == s.log && t.next >= s.next && t.codes == s.codes
        && t.refresh == s.refresh
    requires t.sessions == s.sessions[id := row]
    requires row.user == s.sessions[id].user && row.absoluteExpiry == s.sessions[id].absoluteExpiry
    requires s.sessions[id].revoked ==> row.revoked
    ensures Inv(t)
  {
    RevocationKeepsInv(s, t);
  }

  lemma LogoutKeepsInv(cfg: Config, s: State, cookie: Cookie, ip: string, t: State)
    requires Inv(s) && t == Logout(cfg, s, cookie, ip)
    ensures Inv(t)
  {
    if cookie.id in s.sessions && s.sessions[cookie.id].secret == cookie.secret {
      SessionRowKeepsInv(s, cookie.id, t.sessions[cookie.id], t);
    }
  }

  lemma CheckKeepsInv(cfg: Config, s: State, id: Id, ip: string, enforceIp: bool, t: State)
    requires Inv(s) && t == CheckElsewhere(cfg, s, id, ip, enforceIp)
    ensures Inv(t)
  {
    if id in s.sessions { SessionRowKeepsInv(s, id, t.sessions[id], t); }
  }

  lemma UserStepKeepsInv(cfg: Config, s: State, action: Action, t: State)
    requires Inv(s) && t == Apply(cfg, s, action)
    requires action.SetUser? || action.RevokeSessions? || action.RemoveUser?
    ensures Inv(t)
  {
    match action
    case SetUser(user, active) =>
      var mid := s.(users := s.users[user := active]);
      RevocationKeepsInv(s, mid);
      if t != mid { RevokeUserKeepsInv(mid, user, None, t); }
    case RevokeSessions(user, except) => RevokeUserKeepsInv(s, user, except, t);
    case RemoveUser(user) => DeleteUserKeepsInv(s, user);
  }

  lemma ApplyKeepsInv(cfg: Config, s: State, action: Action, t: State)
    requires Inv(s) && t == Apply(cfg, s, action)
    ensures Inv(t)
  {
    match action
    case ExchangeCode(client, jkt, presented, redirect, verifier, ip) =>
      CodeGrantKeepsInv(cfg, s, client, jkt, presented, redirect, verifier, ip);
    case UseRefresh(client, jkt, presented, ip) => RefreshGrantKeepsInv(cfg, s, client, jkt, presented, ip);
    case RevokeToken(token, jkt) =>
      if t != s { FamilyRevocationKeepsInv(s, s.refresh[token].family, s.refresh[token].session, t); }
    case AuthorizeClient(cookie, client, redirect, challenge, scope, ip) =>
      AuthorizeKeepsInv(cfg, s, cookie, client, redirect, challenge, scope, ip);
    case SignIn(user, ip, tier, amr) => RowAddedKeepsInv(s, t);
    case EndSession(cookie, ip) => LogoutKeepsInv(cfg, s, cookie, ip, t);
    case CheckSession(session, ip, enforceIp) => CheckKeepsInv(cfg, s, session, ip, enforceIp, t);
    case NewSecret(session) => if session in s.sessions { SessionRowKeepsInv(s, session, t.sessions[session], t); }
    case SetUser(_, _) => UserStepKeepsInv(cfg, s, action, t);
    case RevokeSessions(_, _) => UserStepKeepsInv(cfg, s, action, t);
    case RemoveUser(_) => UserStepKeepsInv(cfg, s, action, t);
  }

  lemma StepKeepsInv(cfg: Config, s: State, e: Event, t: State)
    requires Inv(s) && t == Step(cfg, s, e)
    ensures Inv(t)
  {
    hide Inv, Apply;
    var later := s.(now := s.now + e.dt);
    assert Inv(later) by { RevocationKeepsInv(s, later); }
    assert t == Apply(cfg, later, e.action);
    assert Inv(t) by { ApplyKeepsInv(cfg, later, e.action, t); }
  }

  lemma {:induction false} RunKeepsInv(cfg: Config, s: State, events: seq<Event>)
    requires Inv(s)
    ensures Inv(Run(cfg, s, events))
    decreases |events|
  {
    if events != [] {
      var t := Step(cfg, s, events[0]);
      StepKeepsInv(cfg, s, events[0], t);
      RunKeepsInv(cfg, t, events[1..]);
    }
  }

  // --------------------------------------------------- what tokens are bound to

  /** The code row is what was granted. */
  predicate CodeRight(cfg: Config, s: State, code: Id)
    requires code in s.codes
  {
    var row := s.codes[code];
    code < s.next && code in s.granted
    && var g := s.granted[code];
       g.session == row.session && g.client == row.client && g.redirect == row.redirect && g.challenge == row.challenge
       && g.scope == row.scope && row.expires == g.at + cfg.codeTtl * SECOND && g.at <= s.now
  }

  /** A token row is its family's sender's. */
  predicate TokenRight(s: State, token: Id)
    requires token in s.refresh
  {
    var row := s.refresh[token];
    row.family < s.next && row.family in s.senders
    && s.senders[row.family] == Sender(row.session, row.client, row.jkt, row.scope)
  }

  /** What every handing-out of tokens rests on. */
  predicate Bound(cfg: Config, s: State, e: Entry)
    requires e.Tokens?
  {
    var r := e.request;
    && IdpSessions.Alive(cfg.sessions, r.owner, e.at) && r.owner.user in r.users && r.users[r.owner.user]
    && e.family in s.senders && s.senders[e.family].session == e.session
    && s.senders[e.family].client == r.client && s.senders[e.family].jkt == r.jkt
    && (e.source.ByCode? ==>
          e.source.code in s.granted
          && var g := s.granted[e.source.code];
             g.session == e.session && g.client == r.client && g.redirect == r.redirect
                 && g.challenge == cfg.s256(r.verifier)
             && g.scope == s.senders[e.family].scope && g.at <= e.at < g.at + cfg.codeTtl * SECOND)
  }

  ghost predicate Bindings(cfg: Config, s: State) {
    && (forall c :: c in s.codes ==> CodeRight(cfg, s, c))
    && (forall t :: t in s.refresh ==> TokenRight(s, t))
    && (forall k :: 0 <= k < |s.log| && s.log[k].Tokens? ==> Bound(cfg, s, s.log[k]))
    && (forall c :: c in s.granted ==> c < s.next)
    && (forall f :: f in s.senders ==> f < s.next)
  }

  /** Rows kept apart from being spent, revoked or deleted, and history only added to. */
  predicate Extends(s: State, t: State) {
    && t.now >= s.now && t.next >= s.next
    && (forall c :: c in s.granted ==> c in t.granted && t.granted[c] == s.granted[c])
    && (forall f :: f in s.senders ==> f in t.senders && t.senders[f] == s.senders[f])
    && (forall c :: c in t.granted ==> c < t.next)
    && (forall f :: f in t.senders ==> f < t.next)
  }

  predicate SameCode(a: Code, b: Code) { b == a.(consumed := b.consumed) }

  predicate SameToken(a: Refresh, b: Refresh) {
    a.family == b.family && a.session == b.session && a.client == b.client && a.jkt == b.jkt && a.scope == b.scope
  }

  lemma CodesStayRight(cfg: Config, s: State, t: State)
    requires (forall c :: c in s.codes ==> CodeRight(cfg, s, c)) && Extends(s, t)
    requires forall c :: c in t.codes ==> c in s.codes && SameCode(s.codes[c], t.codes[c])
    ensures forall c :: c in t.codes ==> CodeRight(cfg, t, c)
  {
    forall c | c in t.codes ensures CodeRight(cfg, t, c) { assert CodeRight(cfg, s, c); }
  }

  lemma TokensStayRight(s: State, t: State)
    requires (forall k :: k in s.refresh ==> TokenRight(s, k)) && Extends(s, t)
    requires forall k :: k in t.refresh ==> k in s.refresh && SameToken(s.refresh[k], t.refresh[k])
    ensures forall k :: k in t.refresh ==> TokenRight(t, k)
  {
    forall k | k in t.refresh ensures TokenRight(t, k) { assert TokenRight(s, k); }
  }

  lemma LogStaysBound(cfg: Config, s: State, t: State)
    requires (forall k :: 0 <= k < |s.log| && s.log[k].Tokens? ==> Bound(cfg, s, s.log[k])) && Extends(s, t)
    requires s.log <= t.log && forall k :: |s.log| <= k < |t.log| && t.log[k].Tokens? ==> Bound(cfg, t, t.log[k])
    ensures forall k :: 0 <= k < |t.log| && t.log[k].Tokens? ==> Bound(cfg, t, t.log[k])
  {
    forall k | 0 <= k < |t.log| && t.log[k].Tokens? ensures Bound(cfg, t, t.log[k]) {
      if k < |s.log| { assert t.log[k] == s.log[k] && Bound(cfg, s, s.log[k]); }
    }
  }

  /** Nothing granted and no tokens handed out. */
  lemma QuietBinds(cfg: Config, s: State, t: State)
    requires Bindings(cfg, s) && t.now >= s.now && t.next >= s.next && t.granted == s.granted && t.senders == s.senders
    requires s.log <= t.log && forall k :: |s.log| <= k < |t.log| ==> !t.log[k].Tokens?
    requires forall c :: c in t.codes ==> c in s.codes && SameCode(s.codes[c], t.codes[c])
    requires forall k :: k in t.refresh ==> k in s.refresh && SameToken(s.refresh[k], t.refresh[k])
    ensures Bindings(cfg, t)
  {
    CodesStayRight(cfg, s, t);
    TokensStayRight(s, t);
    LogStaysBound(cfg, s, t);
  }

  /** Only sessions, users, the clock and the counter changed. */
  lemma SessionsBind(cfg: Config, s: State, t: State)
    requires Bindings(cfg, s) && t.now >= s.now && t.next >= s.next
    requires t == s.(now := t.now, next := t.next, users := t.users, sessions := t.sessions)
    ensures Bindings(cfg, t)
  {
    QuietBinds(cfg, s, t);
  }

  lemma IssueBinds(cfg: Config, s: State, session: Id, scope: string, source: Source, r: Request, t: State)
    requires Bindings(cfg, s) && session in s.sessions && t == Issued(s, session, scope, source, r)
    requires Bound(cfg, t, t.log[|s.log|])
    ensures Bindings(cfg, t)
  {
    assert Extends(s, t);
    forall c | c in t.codes ensures CodeRight(cfg, t, c) { assert CodeRight(cfg, s, c); }
    forall k | k in t.refresh ensures TokenRight(t, k) {
      if k != s.next { assert TokenRight(s, k); }
    }
    LogStaysBound(cfg, s, t);
  }

  lemma RefreshBinds(cfg: Config, s: State, token: Id, r: Request, t: State)
    requires Bindings(cfg, s) && token in s.refresh && t == Refreshed(s, token, r)
    requires Bound(cfg, t, t.log[|s.log|])
    ensures Bindings(cfg, t)
  {
    assert Extends(s, t);
    CodesStayRight(cfg, s, t);
    forall k | k in t.refresh ensures TokenRight(t, k) {
      assert TokenRight(s, if k == s.next then token else k);
    }
    LogStaysBound(cfg, s, t);
  }

  lemma RedeemedBinds(
    cfg: Config, s: State, client: string, jkt: nat, code: Id, redirect: string, verifier: string, ip: string, t: State)
    requires Bindings(cfg, s) && Consumable(s, code)
    requires t == Redeemed(cfg, s, client, jkt, code, redirect, verifier, ip)
    ensures Bindings(cfg, t)
  {
    var row := s.codes[code];
    var spent := Consumed(s, code);
    QuietBinds(cfg, s, spent);
    if !Redeems(cfg, row, client, redirect, verifier) { return; }
    var checked := spent.(sessions := Rechecked(cfg, s.sessions, row.session, ip, s.now));
    SessionsBind(cfg, spent, checked);
    if MayIssue(cfg, s, row.session, ip) {
      var r := Request(client, jkt, redirect, verifier, s.sessions[row.session], s.users);
      assert CodeRight(cfg, s, code);
      IssueBinds(cfg, checked, row.session, row.scope, ByCode(code), r, t);
    }
  }

  lemma CodeGrantBinds(cfg: Config, s: State, client: string, jkt: nat, code: Option<Id>, redirect: string,
      verifier: string, ip: string, t: State)
    requires Bindings(cfg, s) && t == CodeGrant(cfg, s, client, jkt, code, redirect, verifier, ip)
    ensures Bindings(cfg, t)
  {
    if code.None? || redirect == "" || verifier == "" || code.value !in s.codes { return; }
    if Consumable(s, code.value) {
      RedeemedBinds(cfg, s, client, jkt, code.value, redirect, verifier, ip, t);
    } else if t != s {
      ReplayBinds(cfg, s, code.value);
    }
  }

  lemma ReplayBinds(cfg: Config, s: State, code: Id)
    requires Bindings(cfg, s) && code in s.codes
    ensures Bindings(cfg, Replayed(s, code))
  {
    QuietBinds(cfg, s, Replayed(s, code));
  }

  lemma ReuseBinds(cfg: Config, s: State, token: Id)
    requires Bindings(cfg, s) && token in s.refresh
    ensures Bindings(cfg, Reused(s, token))
  {
    QuietBinds(cfg, s, Reused(s, token));
  }

  lemma RefreshGrantBinds(cfg: Config, s: State, client: string, jkt: nat, token: Option<Id>, ip: string, t: State)
    requires Bindings(cfg, s) && t == RefreshGrant(cfg, s, client, jkt, token, ip)
    ensures Bindings(cfg, t)
  {
    if token.None? || token.value !in s.refresh || s.refresh[token.value].client != client { return; }
    var row := s.refresh[token.value];
    if row.used {
      ReuseBinds(cfg, s, token.value);
    } else if !(row.revoked || row.expires <= s.now || row.jkt != jkt) {
      var checked := s.(sessions := Rechecked(cfg, s.sessions, row.session, ip, s.now));
      SessionsBind(cfg, s, checked);
      if MayIssue(cfg, s, row.session, ip) {
        assert TokenRight(s, token.value);
        RefreshBinds(cfg, checked, token.value, Request(client, jkt, "", "", s.sessions[row.session], s.users), t);
      }
    }
  }

  lemma AuthorizeBinds(cfg: Config, s: State, cookie: Cookie, client: string, redirect: string, challenge: string,
      scope: string, ip: string, t: State)
    requires Bindings(cfg, s) && t == Authorize(cfg, s, cookie, client, redirect, challenge, scope, ip)
    ensures Bindings(cfg, t)
  {
    if cookie.id !in s.sessions || s.sessions[cookie.id].secret != cookie.secret { return; }
    var checked := s.(sessions := Rechecked(cfg, s.sessions, cookie.id, ip, s.now));
    SessionsBind(cfg, s, checked);
    if t.next != s.next {
      CodeBinds(cfg, checked, t.codes[s.next], t.granted[s.next], t);
    }
  }

  /** One code row added with its grant. */
  lemma CodeBinds(cfg: Config, s: State, row: Code, g: Grant, t: State)
    requires Bindings(cfg, s)
    requires t == s.(codes := s.codes[s.next := row], granted := s.granted[s.next := g], next := s.next + 1)
    requires CodeRight(cfg, t, s.next)
    ensures Bindings(cfg, t)
  {
    assert Extends(s, t);
    CodesGrow(cfg, s, t);
    TokensStayRight(s, t);
    LogStaysBound(cfg, s, t);
  }

  lemma CodesGrow(cfg: Config, s: State, t: State)
    requires (forall c :: c in s.codes ==> CodeRight(cfg, s, c)) && Extends(s, t)
    requires s.next in t.codes && CodeRight(cfg, t, s.next)
    requires forall c :: c in t.codes && c != s.next ==> c in s.codes && t.codes[c] == s.codes[c]
    ensures forall c :: c in t.codes ==> CodeRight(cfg, t, c)
  {
    forall c | c in t.codes ensures CodeRight(cfg, t, c) {
      if c != s.next { assert CodeRight(cfg, s, c); }
    }
  }

  lemma RevokeUserBinds(cfg: Config, s: State, user: Id, except: Option<Id>, t: State)
    requires Bindings(cfg, s) && t == RevokeUser(s, user, except)
    ensures Bindings(cfg, t)
  {
    QuietBinds(cfg, s, t);
  }

  lemma DeleteUserBinds(cfg: Config, s: State, user: Id, t: State)
    requires Bindings(cfg, s) && t == DeleteUser(s, user)
    ensures Bindings(cfg, t)
  {
    QuietBinds(cfg, s, t);
  }

  lemma RevokeTokenBinds(cfg: Config, s: State, token: Id, jkt: nat, t: State)
    requires Bindings(cfg, s) && t == RevokeGrant(s, token, jkt)
    ensures Bindings(cfg, t)
  {
    QuietBinds(cfg, s, t);
  }

  lemma SetUserBinds(cfg: Config, s: State, user: Id, active: bool, t: State)
    requires Bindings(cfg, s) && t == Apply(cfg, s, SetUser(user, active))
    ensures Bindings(cfg, t)
  {
    var mid := s.(users := s.users[user := active]);
    SessionsBind(cfg, s, mid);
    if t != mid { RevokeUserBinds(cfg, mid, user, None, t); }
  }

  lemma SessionStepBinds(cfg: Config, s: State, action: Action, t: State)
    requires Bindings(cfg, s) && t == Apply(cfg, s, action)
    requires action.EndSession? || action.SignIn? || action.CheckSession? || action.NewSecret?
    ensures Bindings(cfg, t)
  {
    SessionsBind(cfg, s, t);
  }

  lemma ApplyBinds(cfg: Config, s: State, action: Action, t: State)
    requires Bindings(cfg, s) && t == Apply(cfg, s, action)
    ensures Bindings(cfg, t)
  {
    match action
    case ExchangeCode(client, jkt, presented, redirect, verifier, ip) =>
      CodeGrantBinds(cfg, s, client, jkt, presented, redirect, verifier, ip, t);
    case UseRefresh(client, jkt, presented, ip) => RefreshGrantBinds(cfg, s, client, jkt, presented, ip, t);
    case AuthorizeClient(cookie, client, redirect, challenge, scope, ip) =>
      AuthorizeBinds(cfg, s, cookie, client, redirect, challenge, scope, ip, t);
    case RevokeToken(token, jkt) => RevokeTokenBinds(cfg, s, token, jkt, t);
    case SetUser(user, active) => SetUserBinds(cfg, s, user, active, t);
    case RevokeSessions(user, except) => RevokeUserBinds(cfg, s, user, except, t);
    case RemoveUser(user) => DeleteUserBinds(cfg, s, user, t);
    case EndSession(_, _) => SessionStepBinds(cfg, s, action, t);
    case SignIn(_, _, _, _) => SessionStepBinds(cfg, s, action, t);
    case CheckSession(_, _, _) => SessionStepBinds(cfg, s, action, t);
    case NewSecret(_) => SessionStepBinds(cfg, s, action, t);
  }

  lemma StepBinds(cfg: Config, s: State, e: Event, t: State)
    requires Bindings(cfg, s) && t == Step(cfg, s, e)
    ensures Bindings(cfg, t)
  {
    hide Bindings, Apply;
    var later := s.(now := s.now + e.dt);
    assert Bindings(cfg, later) by { SessionsBind(cfg, s, later); }
    assert t == Apply(cfg, later, e.action);
    assert Bindings(cfg, t) by { ApplyBinds(cfg, later, e.action, t); }
  }

  lemma {:induction false} RunBinds(cfg: Config, s: State, events: seq<Event>)
    requires Bindings(cfg, s)
    ensures Bindings(cfg, Run(cfg, s, events))
    decreases |events|
  {
    if events != [] {
      var t := Step(cfg, s, events[0]);
      StepBinds(cfg, s, events[0], t);
      RunBinds(cfg, t, events[1..]);
    }
  }

  // ------------------------------------------------------------ main results

  /** Tokens are only handed out while the session is live and its user active; for a
      code, to the client it was granted to, with its redirect URI, the verifier of its
      challenge, and less than the code lifetime after the grant. */
  lemma ExchangesAreBoundToTheirGrant(cfg: Config, events: seq<Event>, k: nat)
    requires k < |Run(cfg, INITIAL, events).log| && Run(cfg, INITIAL, events).log[k].Tokens?
    ensures
      var s := Run(cfg, INITIAL, events);
      Bound(cfg, s, s.log[k])
  {
    RunBinds(cfg, INITIAL, events);
  }

  /** All tokens of a family go to one client and one key. */
  lemma FamiliesHaveOneSender(cfg: Config, events: seq<Event>, i: nat, j: nat)
    requires i < |Run(cfg, INITIAL, events).log| && j < |Run(cfg, INITIAL, events).log|
    requires
      var log := Run(cfg, INITIAL, events).log;
      log[i].Tokens? && log[j].Tokens? && log[i].family == log[j].family
    ensures
      var log := Run(cfg, INITIAL, events).log;
      log[i].request.client == log[j].request.client && log[i].request.jkt == log[j].request.jkt
  {
    RunBinds(cfg, INITIAL, events);
    var s := Run(cfg, INITIAL, events);
    assert Bound(cfg, s, s.log[i]) && Bound(cfg, s, s.log[j]);
  }

  /** Once a consumed code is presented again, or a used refresh token by its own
      client, no tokens are ever again issued for that session, nor in the family of
      the reused token or of anything issued to the session before. */
  lemma NoTokensAfterAnAlarm(cfg: Config, events: seq<Event>, i: nat, j: nat)
    requires i < j < |Run(cfg, INITIAL, events).log|
    requires Alarm(Run(cfg, INITIAL, events).log[i]) && Run(cfg, INITIAL, events).log[j].Tokens?
    ensures
      var log := Run(cfg, INITIAL, events).log;
      && log[j].session != log[i].session
      && (log[i].RefreshReuse? ==> log[j].family != log[i].family)
      && forall k :: 0 <= k < |log| && log[k].Tokens? && log[k].session == log[i].session ==>
          log[k].family != log[j].family
  {
    RunKeepsInv(cfg, INITIAL, events);
    var s := Run(cfg, INITIAL, events);
    assert Follows(s.log[i], s.log[j]);
    if s.log[i].RefreshReuse? { assert Agrees(s.log[j], s.log[i].family, s.log[i].session); }
    forall k | 0 <= k < |s.log| && s.log[k].Tokens? && s.log[k].session == s.log[i].session
      ensures s.log[k].family != s.log[j].family
    {
      assert Agrees(s.log[j], s.log[k].family, s.log[k].session);
    }
  }

  /** A consumed code presented again with its form fields filled in, whoever presents
      it, or a used refresh token presented again by its own client. */
  predicate Raises(s: State, action: Action, session: Id) {
    match action
    case ExchangeCode(_, _, code, redirect, verifier, _) =>
      code.Some? && redirect != "" && verifier != "" && code.value in s.codes && s.codes[code.value].consumed
      && s.codes[code.value].session == session
    case UseRefresh(client, _, token, _) =>
      token.Some? && token.value in s.refresh && s.refresh[token.value].client == client
      && s.refresh[token.value].used && s.refresh[token.value].session == session
    case _ => false
  }

  lemma RedeemedLogs(
    cfg: Config, s: State, client: string, jkt: nat, code: Id, redirect: string, verifier: string, ip: string)
    requires Consumable(s, code)
    ensures s.log <= Redeemed(cfg, s, client, jkt, code, redirect, verifier, ip).log
  {
  }

  lemma CodeGrantLogs(
    cfg: Config, s: State, client: string, jkt: nat, code: Option<Id>, redirect: string, verifier: string, ip: string)
    ensures s.log <= CodeGrant(cfg, s, client, jkt, code, redirect, verifier, ip).log
  {
    if code.Some? && Consumable(s, code.value) {
      RedeemedLogs(cfg, s, client, jkt, code.value, redirect, verifier, ip);
    }
  }

  lemma RefreshGrantLogs(cfg: Config, s: State, client: string, jkt: nat, token: Option<Id>, ip: string)
    ensures s.log <= RefreshGrant(cfg, s, client, jkt, token, ip).log
  {
  }

  lemma OthersLogNothing(cfg: Config, s: State, action: Action, t: State)
    requires t == Apply(cfg, s, action) && !action.ExchangeCode? && !action.UseRefresh?
    ensures t.log == s.log
  {
  }

  lemma ApplyLogs(cfg: Config, s: State, action: Action, t: State)
    requires t == Apply(cfg, s, action)
    ensures s.log <= t.log
  {
    match action
    case ExchangeCode(client, jkt, presented, redirect, verifier, ip) =>
      CodeGrantLogs(cfg, s, client, jkt, presented, redirect, verifier, ip);
    case UseRefresh(client, jkt, presented, ip) => RefreshGrantLogs(cfg, s, client, jkt, presented, ip);
    case _ => OthersLogNothing(cfg, s, action, t);
  }

  lemma StepLogs(cfg: Config, s: State, e: Event, t: State)
    requires t == Step(cfg, s, e)
    ensures s.log <= t.log
  {
    hide Apply;
    var later := s.(now := s.now + e.dt);
    assert later.log == s.log;
    assert t == Apply(cfg, later, e.action);
    ApplyLogs(cfg, later, e.action, t);
  }

  lemma RaisingActs(cfg: Config, s: State, action: Action, session: Id, t: State)
    requires Raises(s, action, session) && t == Apply(cfg, s, action)
    ensures if action.ExchangeCode? then t == Replayed(s, action.presented.value)
            else t == Reused(s, action.presented.value)
  {
  }

  lemma RaisingLogs(cfg: Config, s: State, e: Event, session: Id, t: State)
    requires Raises(s, e.action, session) && t == Step(cfg, s, e)
    ensures |t.log| == |s.log| + 1 && Alarm(t.log[|s.log|]) && t.log[|s.log|].session == session
  {
    hide Apply;
    var later := s.(now := s.now + e.dt);
    assert t == Apply(cfg, later, e.action);
    assert Raises(later, e.action, session);
    RaisingActs(cfg, later, e.action, session, t);
  }

  lemma {:induction false} LogGrows(cfg: Config, s: State, events: seq<Event>, end: State)
    requires end == Run(cfg, s, events)
    ensures s.log <= end.log
    decreases |events|
  {
    if events != [] {
      var t := Step(cfg, s, events[0]);
      StepLogs(cfg, s, events[0], t);
      LogGrows(cfg, t, events[1..], end);
    }
  }

  lemma OrderedAfterAlarm(s: State, t: State, end: State, session: Id, j: nat)
    requires t.log <= end.log && Ordered(end.log)
    requires |t.log| == |s.log| + 1 && Alarm(t.log[|s.log|]) && t.log[|s.log|].session == session
    requires |t.log| <= j < |end.log| && end.log[j].Tokens?
    ensures end.log[j].session != session
  {
    assert end.log[|s.log|] == t.log[|s.log|];
    assert Follows(end.log[|s.log|], end.log[j]);
  }

  /** The same as a statement about requests: from any reachable state, once such a
      presentation is made, no continuation hands out tokens for that session. */
  lemma PresentingAgainEndsTheSession(cfg: Config, before: seq<Event>, e: Event, after: seq<Event>, session: Id, j: nat)
    requires Raises(Run(cfg, INITIAL, before), e.action, session)
    requires
      var t := Step(cfg, Run(cfg, INITIAL, before), e);
      |t.log| <= j < |Run(cfg, t, after).log| && Run(cfg, t, after).log[j].Tokens?
    ensures Run(cfg, Step(cfg, Run(cfg, INITIAL, before), e), after).log[j].session != session
  {
    var s := Run(cfg, INITIAL, before);
    var t := Step(cfg, s, e);
    var end := Run(cfg, t, after);
    RunKeepsInv(cfg, INITIAL, before);
    StepKeepsInv(cfg, s, e, t);
    RunKeepsInv(cfg, t, after);
    RaisingLogs(cfg, s, e, session, t);
    LogGrows(cfg, t, after, end);
    OrderedAfterAlarm(s, t, end, session, j);
  }

  /** Codes and refresh tokens are each exchanged at most once, ever. */
  lemma EverySourceIsSpentOnce(cfg: Config, events: seq<Event>, i: nat, j: nat)
    requires i < j < |Run(cfg, INITIAL, events).log|
    requires Run(cfg, INITIAL, events).log[i].Tokens? && Run(cfg, INITIAL, events).log[j].Tokens?
    ensures Run(cfg, INITIAL, events).log[i].source != Run(cfg, INITIAL, events).log[j].source
  {
    RunKeepsInv(cfg, INITIAL, events);
    var s := Run(cfg, INITIAL, events);
    assert Follows(s.log[i], s.log[j]);
  }

  /** In every reachable state the family of every refresh token is one parent-linked
      chain, every token of it but the last used, all of one session, client, user, key
      and scope, and expiring with the session. */
  lemma FamiliesAreChains(cfg: Config, events: seq<Event>, id: Id)
    requires id in Run(cfg, INITIAL, events).refresh
    ensures
      var s := Run(cfg, INITIAL, events);
      var row := s.refresh[id];
      && HasChain(s.refresh, row.family)
      && (forall other :: other in s.refresh && s.refresh[other].family == row.family ==>
          SameGrant(s.refresh[other], row))
      && (forall other ::
            other in s.refresh && s.refresh[other].family == row.family && !s.refresh[other].used && !row.used ==>
              other == id)
      && row.session in s.sessions && row.expires == s.sessions[row.session].absoluteExpiry
          && row.user == s.sessions[row.session].user
  {
    RunKeepsInv(cfg, INITIAL, events);
    var s := Run(cfg, INITIAL, events);
    assert RefreshSane(s, id);
    forall other | other in s.refresh && s.refresh[other].family == s.refresh[id].family
      ensures SameGrant(s.refresh[other], s.refresh[id])
      ensures !s.refresh[other].used && !s.refresh[id].used ==> other == id
    {
      if !s.refresh[other].used && !s.refresh[id].used { AtMostOneUnused(s.refresh, other, id); }
    }
  }

  /** An alarm revokes for good: in every later state each refresh token of a replayed
      code's session, or of a reused token's family, is revoked, and so is the session. */
  lemma AlarmsRevokeForGood(cfg: Config, events: seq<Event>, k: nat)
    requires k < |Run(cfg, INITIAL, events).log| && Alarm(Run(cfg, INITIAL, events).log[k])
    ensures
      var s := Run(cfg, INITIAL, events);
      SessionDead(s, s.log[k].session)
      && forall id :: id in s.refresh && Covers(s.log[k], s.refresh[id]) ==> s.refresh[id].revoked
  {
    RunKeepsInv(cfg, INITIAL, events);
    var s := Run(cfg, INITIAL, events);
    assert EntrySane(s, s.log[k]);
  }
}
