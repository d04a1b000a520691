/** When the provider hands out tokens, and what ends that, on the stored rows
    (server/src/hyproxy/idp/oidc/token.py, revoke.py, authorize.py, logout and the
    revocations of an administrator). */
module OidcExchanges {
  import opened Prelude
  import opened Rows
  import opened RefreshFamilies
  import opened Oidc
  import IdpSessions

  // ------------------------------------------------------------ the two grants

  /** The session is there and stands, and its user is active. */
  predicate MayHold(cfg: Config, s: State, session: Id) {
    session in s.sessions && IdpSessions.Standing(cfg.sessions, s.sessions[session], s.now)
    && s.sessions[session].user in s.users && s.users[s.sessions[session].user]
  }

  /** An unspent, unrevoked, unexpired refresh token, presented by its client with its
      key, of a session that may hold tokens. */
  predicate Presentable(cfg: Config, s: State, client: string, jkt: nat, token: Option<Id>) {
    token.Some? && token.value in s.refresh
    && var row := s.refresh[token.value];
       row.client == client && row.jkt == jkt && !row.used && !row.revoked && s.now < row.expires
       && MayHold(cfg, s, row.session)
  }

  /** An unspent, unexpired code, presented by its client with its redirect URI and the
      verifier of its challenge, of a session that may hold tokens. */
  predicate Redeemable(cfg: Config, s: State, client: string, code: Option<Id>, redirect: string, verifier: string) {
    code.Some? && redirect != "" && verifier != "" && code.value in s.codes
    && var row := s.codes[code.value];
       !row.consumed && s.now < row.expires && row.client == client && row.redirect == redirect
       && row.challenge == cfg.s256(verifier) && MayHold(cfg, s, row.session)
  }

  /** Numbers to come are not in use. */
  predicate NextIsFree(s: State) { forall id :: id in s.refresh ==> id < s.next }

  /** Nothing moved in the sessions but the time one of them was last seen. */
  predicate OnlySeen(s: map<Id, Session>, t: map<Id, Session>) {
    t.Keys == s.Keys && forall id :: id in s ==> t[id] == s[id].(lastSeen := t[id].lastSeen)
  }

  /** The session is revoked, or gone, and its number is taken. */
  predicate Ended(s: State, session: Id) {
    session < s.next && (session in s.sessions ==> s.sessions[session].revoked)
  }

  lemma HoldingReads(cfg: Config, s: State, session: Id, ip: string)
    ensures MayIssue(cfg, s, session, ip) <==> MayHold(cfg, s, session)
    ensures MayHold(cfg, s, session) ==> OnlySeen(s.sessions, Rechecked(cfg, s.sessions, session, ip, s.now))
  {
    if session in s.sessions { IdpSessions.CheckOnTheRow(cfg.sessions, s.sessions[session], ip, s.now, false); }
  }

  /** The liveness check of an exchange: an idle gap ends the session, a due touch notes
      the time, and no other session moves. */
  lemma ExchangesCheckTheSession(cfg: Config, s: State, session: Id, ip: string)
    requires session in s.sessions && !s.sessions[session].revoked && !s.sessions[session].stale
    requires s.now < s.sessions[session].absoluteExpiry
    ensures
      var before := s.sessions[session];
      var idle := s.now > before.lastSeen + cfg.sessions.idle;
      Rechecked(cfg, s.sessions, session, ip, s.now) ==
        s.sessions[session := before.(revoked := idle,
          lastSeen := if !idle && s.now >= before.lastSeen + cfg.sessions.touchInterval then s.now
                      else before.lastSeen)]
  {
    IdpSessions.CheckOnTheRow(cfg.sessions, s.sessions[session], ip, s.now, false);
  }

  /** A presentable token is exchanged: one entry, the row spent, and one unspent child
      with the same family, session, client, user, key, scope and expiry. */
  lemma RefreshRotates(cfg: Config, s: State, client: string, jkt: nat, token: Option<Id>, ip: string)
    requires Presentable(cfg, s, client, jkt, token) && NextIsFree(s)
    ensures
      var t := RefreshGrant(cfg, s, client, jkt, token, ip);
      var row := s.refresh[token.value];
      && t.log == s.log + [Tokens(s.now, row.session, row.family, ByRefresh(token.value),
                                  Request(client, jkt, "", "", s.sessions[row.session], s.users))]
      && t.refresh == s.refresh[token.value := row.(used := true)][
           s.next := Refresh(row.session, row.family, Some(token.value), client, row.user, jkt, row.scope, row.expires,
                             false, false)]
      && OnlySeen(s.sessions, t.sessions) && t.codes == s.codes && t.users == s.users
  {
    HoldingReads(cfg, s, s.refresh[token.value].session, ip);
  }

  /** Any other presentation hands out nothing and adds no token. */
  lemma OtherRefreshesGetNothing(cfg: Config, s: State, client: string, jkt: nat, token: Option<Id>, ip: string)
    requires !Presentable(cfg, s, client, jkt, token)
    ensures
      var t := RefreshGrant(cfg, s, client, jkt, token, ip);
      && t.refresh.Keys == s.refresh.Keys && s.log <= t.log
      && forall k :: |s.log| <= k < |t.log| ==> t.log[k].RefreshReuse?
  {
    if token.Some? && token.value in s.refresh { HoldingReads(cfg, s, s.refresh[token.value].session, ip); }
  }

  /** A redeemable code is exchanged: one entry, the code spent, and one unspent token
      in a family of its own, with the code's session, its user and expiry, the granted
      scope, and the key of the request. */
  lemma CodeOpensAFamily(cfg: Config, s: State, client: string, jkt: nat, code: Option<Id>, redirect: string,
      verifier: string, ip: string)
    requires Redeemable(cfg, s, client, code, redirect, verifier)
    ensures
      var t := CodeGrant(cfg, s, client, jkt, code, redirect, verifier, ip);
      var row := s.codes[code.value];
      var owner := s.sessions[row.session];
      && t.log == s.log + [Tokens(s.now, row.session, s.next + 1, ByCode(code.value),
                                  Request(client, jkt, redirect, verifier, owner, s.users))]
      && t.refresh == s.refresh[s.next := Refresh(row.session, s.next + 1, None, client, owner.user, jkt, row.scope,
                                                  owner.absoluteExpiry, false, false)]
      && t.codes == s.codes[code.value := row.(consumed := true)]
      && OnlySeen(s.sessions, t.sessions) && t.users == s.users && t.next == s.next + 2
  {
    HoldingReads(cfg, s, s.codes[code.value].session, ip);
    IdpSessions.CheckOnTheRow(cfg.sessions, s.sessions[s.codes[code.value].session], ip, s.now, false);
  }

  /** Any other presentation hands out nothing; but a filled-in one of an unspent code
      spends it all the same, whoever presents it. */
  lemma OtherCodesGetNothing(cfg: Config, s: State, client: string, jkt: nat, code: Option<Id>, redirect: string,
      verifier: string, ip: string)
    requires !Redeemable(cfg, s, client, code, redirect, verifier)
    ensures
      var t := CodeGrant(cfg, s, client, jkt, code, redirect, verifier, ip);
      && t.refresh.Keys == s.refresh.Keys && s.log <= t.log
      && (forall k :: |s.log| <= k < |t.log| ==> t.log[k].CodeReplay?)
      && (code.Some? && redirect != "" && verifier != "" && code.value in s.codes && s.now < s.codes[code.value].expires
          ==> t.codes == s.codes[code.value := s.codes[code.value].(consumed := true)])
  {
    hide Redeemed, Replayed, Redeems, MayIssue, MayHold;
    if code.Some? && redirect != "" && verifier != "" && code.value in s.codes {
      HoldingReads(cfg, s, s.codes[code.value].session, ip);
      if Consumable(s, code.value) {
        UnredeemedIsSpent(cfg, s, client, jkt, code.value, redirect, verifier, ip);
      } else if s.codes[code.value].consumed {
        ReplayAddsAnAlarm(s, code.value);
      }
    }
  }

  lemma UnredeemedIsSpent(cfg: Config, s: State, client: string, jkt: nat, code: Id, redirect: string,
      verifier: string, ip: string)
    requires Consumable(s, code)
    requires !Redeemable(cfg, s, client, Some(code), redirect, verifier) && redirect != "" && verifier != ""
    ensures
      var t := Redeemed(cfg, s, client, jkt, code, redirect, verifier, ip);
      && t == s.(codes := s.codes[code := s.codes[code].(consumed := true)], sessions := t.sessions)
      && forall id :: Ended(s, id) ==> Ended(t, id)
  {
    HoldingReads(cfg, s, s.codes[code].session, ip);
  }

  lemma ReplayAddsAnAlarm(s: State, code: Id)
    requires code in s.codes && s.codes[code].consumed
    ensures
      var t := Replayed(s, code);
      && t.refresh.Keys == s.refresh.Keys && t.log == s.log + [CodeReplay(s.now, s.codes[code].session, code)]
      && t.codes == s.codes && t.next == s.next && forall id :: Ended(s, id) ==> Ended(t, id)
  {
    assert s.codes[code := s.codes[code].(consumed := true)] == s.codes;
  }

  /** The requests that hand out tokens, in full. */
  predicate Exchange(cfg: Config, s: State, action: Action) {
    match action
    case ExchangeCode(client, jkt, code, redirect, verifier, _) => Redeemable(cfg, s, client, code, redirect, verifier)
    case UseRefresh(client, jkt, token, _) => Presentable(cfg, s, client, jkt, token)
    case _ => false
  }

  predicate HandsOut(s: State, t: State) { |t.log| == |s.log| + 1 && s.log <= t.log && t.log[|s.log|].Tokens? }

  lemma ActionHandsOut(cfg: Config, s: State, action: Action)
    requires NextIsFree(s)
    ensures HandsOut(s, Apply(cfg, s, action)) <==> Exchange(cfg, s, action)
  {
    match action
    case ExchangeCode(client, jkt, code, redirect, verifier, ip) =>
      if Exchange(cfg, s, action) {
        CodeOpensAFamily(cfg, s, client, jkt, code, redirect, verifier, ip);
      } else {
        OtherCodesGetNothing(cfg, s, client, jkt, code, redirect, verifier, ip);
      }
    case UseRefresh(client, jkt, token, ip) =>
      if Exchange(cfg, s, action) {
        RefreshRotates(cfg, s, client, jkt, token, ip);
      } else {
        OtherRefreshesGetNothing(cfg, s, client, jkt, token, ip);
      }
    case _ => OthersLogNothing(cfg, s, action, Apply(cfg, s, action));
  }

  /** In every reachable state a step hands out tokens if and only if it presents a
      redeemable code or a presentable refresh token. */
  lemma TokensExactlyWhenDue(cfg: Config, events: seq<Event>, e: Event)
    ensures
      var s := Run(cfg, INITIAL, events);
      HandsOut(s, Step(cfg, s, e)) <==> Exchange(cfg, s.(now := s.now + e.dt), e.action)
  {
    hide Inv, Apply, Exchange;
    var s := Run(cfg, INITIAL, events);
    assert NextIsFree(s) by {
      RunKeepsInv(cfg, INITIAL, events);
      NumbersAreTaken(s);
    }
    var later := s.(now := s.now + e.dt);
    assert Step(cfg, s, e) == Apply(cfg, later, e.action) && later.log == s.log;
    ActionHandsOut(cfg, later, e.action);
  }

  lemma NumbersAreTaken(s: State)
    requires Inv(s)
    ensures NextIsFree(s)
  {
    forall id | id in s.refresh ensures id < s.next { assert RefreshSane(s, id); }
  }

  // ----------------------------------------------------------- what ends a grant

  predicate Revokes(before: Refresh, after: Refresh, hit: bool) {
    after == before.(revoked := before.revoked || hit)
  }

  /** The holder of a token's key ends its family and its session, and nothing else;
      anyone else ends nothing. */
  lemma RevocationEndsTheFamily(s: State, token: Id, jkt: nat)
    ensures
      var t := RevokeGrant(s, token, jkt);
      if token in s.refresh && s.refresh[token].jkt == jkt then
        var row := s.refresh[token];
        && t.refresh.Keys == s.refresh.Keys && t.sessions.Keys == s.sessions.Keys
        && (forall k :: k in s.refresh ==> Revokes(s.refresh[k], t.refresh[k], s.refresh[k].family == row.family))
        && (forall k :: k in s.sessions ==>
              t.sessions[k] == s.sessions[k].(revoked := s.sessions[k].revoked || k == row.session))
        && t == s.(refresh := t.refresh, sessions := t.sessions)
      else t == s
  {
  }

  /** A spent code presented again ends its session with all the session's tokens. */
  lemma ReplayEnds(cfg: Config, s: State, client: string, jkt: nat, code: Id, redirect: string, verifier: string,
      ip: string)
    requires code in s.codes && s.codes[code].consumed && redirect != "" && verifier != ""
    requires s.codes[code].session in s.sessions
    ensures
      var t := CodeGrant(cfg, s, client, jkt, Some(code), redirect, verifier, ip);
      var session := s.codes[code].session;
      && t.sessions == s.sessions[session := s.sessions[session].(revoked := true)]
      && t.refresh.Keys == s.refresh.Keys
      && forall k :: k in s.refresh ==> Revokes(s.refresh[k], t.refresh[k], s.refresh[k].session == session)
  {
  }

  /** A spent refresh token, from its own client, ends its family and its session. */
  lemma ReuseEnds(cfg: Config, s: State, client: string, jkt: nat, token: Id, ip: string)
    requires token in s.refresh && s.refresh[token].used && s.refresh[token].client == client
    ensures
      var t := RefreshGrant(cfg, s, client, jkt, Some(token), ip);
      var row := s.refresh[token];
      && t.refresh.Keys == s.refresh.Keys && t.sessions.Keys == s.sessions.Keys
      && (forall k :: k in s.refresh ==> Revokes(s.refresh[k], t.refresh[k], s.refresh[k].family == row.family))
      && forall k :: k in s.sessions ==>
           t.sessions[k] == s.sessions[k].(revoked := s.sessions[k].revoked || k == row.session)
  {
  }

  /** The cookie names the session, proves it, and the session stands. */
  predicate Holds(cfg: Config, s: State, cookie: Cookie) {
    cookie.id in s.sessions && s.sessions[cookie.id].secret == cookie.secret
    && IdpSessions.Standing(cfg.sessions, s.sessions[cookie.id], s.now)
  }

  /** A logout with the cookie of a standing session revokes it; any other revokes
      nothing but a session found idle too long. */
  lemma LogoutEnds(cfg: Config, s: State, cookie: Cookie, ip: string)
    ensures
      var t := Logout(cfg, s, cookie, ip);
      && t.sessions.Keys == s.sessions.Keys && t == s.(sessions := t.sessions)
      && (Holds(cfg, s, cookie) ==> t.sessions[cookie.id].revoked)
      && forall k :: k in s.sessions && (k != cookie.id || s.sessions[k].secret != cookie.secret) ==>
           t.sessions[k] == s.sessions[k]
  {
    if cookie.id in s.sessions { IdpSessions.CheckOnTheRow(cfg.sessions, s.sessions[cookie.id], ip, s.now, false); }
  }

  /** An administrator's revocation takes every session of the user but the one spared,
      with the refresh tokens of those it takes, and leaves all else. */
  lemma UserRevocationEnds(s: State, user: Id, except: Option<Id>)
    ensures
      var t := RevokeUser(s, user, except);
      && t.sessions.Keys == s.sessions.Keys && t.refresh.Keys == s.refresh.Keys
      && (forall k :: k in s.sessions ==>
            t.sessions[k] == s.sessions[k].(revoked := s.sessions[k].revoked
                || (s.sessions[k].user == user && except != Some(k))))
      && (forall k :: k in s.refresh ==>
            Revokes(s.refresh[k], t.refresh[k],
                    s.refresh[k].session in s.sessions && s.sessions[s.refresh[k].session].user == user
                    && !s.sessions[s.refresh[k].session].revoked && except != Some(s.refresh[k].session)))
      && t == s.(sessions := t.sessions, refresh := t.refresh)
  {
  }

  /** Deactivating a user ends all its sessions with it. */
  lemma DeactivationEnds(cfg: Config, s: State, user: Id)
    requires user in s.users && s.users[user]
    ensures
      var t := Apply(cfg, s, SetUser(user, false));
      && t.users == s.users[user := false] && t.sessions.Keys == s.sessions.Keys
      && forall k :: k in s.sessions && s.sessions[k].user == user ==> t.sessions[k].revoked
  {
  }

  /** Removing a user takes its sessions, and the codes and refresh tokens that are its
      or theirs, and leaves all other rows as they are. */
  lemma RemovalTakes(s: State, user: Id)
    ensures
      var t := DeleteUser(s, user);
      && t.users == s.users - {user}
      && (forall k :: k in t.sessions <==> k in s.sessions && s.sessions[k].user != user)
      && (forall k :: k in t.codes <==>
            k in s.codes && s.codes[k].user != user
            && !(s.codes[k].session in s.sessions && s.sessions[s.codes[k].session].user == user))
      && (forall k :: k in t.refresh <==>
            k in s.refresh && s.refresh[k].user != user
            && !(s.refresh[k].session in s.sessions && s.sessions[s.refresh[k].session].user == user))
      && t == s.(users := t.users, sessions := t.sessions, codes := t.codes, refresh := t.refresh)
      && (forall k :: k in t.sessions ==> t.sessions[k] == s.sessions[k])
      && (forall k :: k in t.codes ==> t.codes[k] == s.codes[k])
      && forall k :: k in t.refresh ==> t.refresh[k] == s.refresh[k]
  {
  }

  /** The authorize endpoint grants a code exactly to a standing session's cookie, for
      that session and user and what the request asked for. */
  lemma AuthorizationGrants(cfg: Config, s: State, cookie: Cookie, client: string, redirect: string, challenge: string,
      scope: string, ip: string)
    ensures
      var t := Authorize(cfg, s, cookie, client, redirect, challenge, scope, ip);
      && t.codes == (if Holds(cfg, s, cookie)
                     then s.codes[s.next := Code(client, redirect, challenge, cookie.id, s.sessions[cookie.id].user,
                                                 scope, s.now + cfg.codeTtl * SECOND, false)]
                     else s.codes)
      && t.refresh == s.refresh && t.log == s.log && t.users == s.users && t.sessions.Keys == s.sessions.Keys
  {
    if cookie.id in s.sessions { IdpSessions.CheckOnTheRow(cfg.sessions, s.sessions[cookie.id], ip, s.now, false); }
  }

  /** What else happens to sessions: a login starts one, live and with the full bound; a
      new cookie changes the secret alone; a check elsewhere leaves what a check leaves. */
  lemma SessionsMove(cfg: Config, s: State, user: Id, ip: string, tier: bool, amr: set<Factor>, id: Id, enforceIp: bool)
    ensures Apply(cfg, s, SignIn(user, ip, tier, amr)).sessions ==
            s.sessions[s.next := Session(user, s.next + 1, ip, tier, amr, s.now, s.now,
                                         s.now + cfg.absoluteTtl * SECOND, false, false)]
    ensures Apply(cfg, s, NewSecret(id)).sessions ==
            if id in s.sessions then s.sessions[id := s.sessions[id].(secret := s.next)] else s.sessions
    ensures
      var t := Apply(cfg, s, CheckSession(id, ip, enforceIp));
      && t.sessions.Keys == s.sessions.Keys
      && (forall k :: k in s.sessions && k != id ==> t.sessions[k] == s.sessions[k])
      && (id in s.sessions && !s.sessions[id].revoked && !s.sessions[id].stale && s.now < s.sessions[id].absoluteExpiry
          ==>
            (t.sessions[id].revoked <==> s.now > s.sessions[id].lastSeen + cfg.sessions.idle)
            && (t.sessions[id].stale <==>
                s.now <= s.sessions[id].lastSeen + cfg.sessions.idle && enforceIp && ip != s.sessions[id].ip))
  {
    if id in s.sessions { IdpSessions.CheckOnTheRow(cfg.sessions, s.sessions[id], ip, s.now, enforceIp); }
  }

  // -------------------------------------------------------------- and for good

  lemma ActionKeepsEnded(cfg: Config, s: State, action: Action, t: State, session: Id)
    requires Ended(s, session) && t == Apply(cfg, s, action)
    ensures Ended(t, session)
  {
    match action
    case ExchangeCode(client, jkt, code, redirect, verifier, ip) =>
      CodeKeepsEnded(cfg, s, client, jkt, code, redirect, verifier, ip, session);
    case UseRefresh(client, jkt, token, ip) => RefreshKeepsEnded(cfg, s, client, jkt, token, ip, session);
    case _ => OthersKeepEnded(cfg, s, action, t, session);
  }

  lemma OthersKeepEnded(cfg: Config, s: State, action: Action, t: State, session: Id)
    requires Ended(s, session) && t == Apply(cfg, s, action) && !action.ExchangeCode? && !action.UseRefresh?
    ensures Ended(t, session)
  {
    hide RevokeUser, DeleteUser, Logout, Authorize;
    match action
    case SetUser(user, active) => UserRevocationEnds(s.(users := s.users[user := active]), user, None);
    case RevokeSessions(user, except) => UserRevocationEnds(s, user, except);
    case RemoveUser(user) => RemovalTakes(s, user);
    case EndSession(cookie, ip) => LogoutKeepsEnded(cfg, s, cookie, ip, session);
    case AuthorizeClient(cookie, client, redirect, challenge, scope, ip) =>
      AuthorizeKeepsEnded(cfg, s, cookie, client, redirect, challenge, scope, ip, session);
    case _ =>
  }

  lemma LogoutKeepsEnded(cfg: Config, s: State, cookie: Cookie, ip: string, session: Id)
    requires Ended(s, session)
    ensures Ended(Logout(cfg, s, cookie, ip), session)
  {
  }

  lemma AuthorizeKeepsEnded(cfg: Config, s: State, cookie: Cookie, client: string, redirect: string, challenge: string,
      scope: string, ip: string, session: Id)
    requires Ended(s, session)
    ensures Ended(Authorize(cfg, s, cookie, client, redirect, challenge, scope, ip), session)
  {
  }

  lemma CodeKeepsEnded(cfg: Config, s: State, client: string, jkt: nat, code: Option<Id>, redirect: string,
      verifier: string, ip: string, session: Id)
    requires Ended(s, session)
    ensures Ended(CodeGrant(cfg, s, client, jkt, code, redirect, verifier, ip), session)
  {
    hide Redeemed, Replayed;
    if Redeemable(cfg, s, client, code, redirect, verifier) {
      CodeOpensAFamily(cfg, s, client, jkt, code, redirect, verifier, ip);
    } else if code.Some? && redirect != "" && verifier != "" && code.value in s.codes {
      if Consumable(s, code.value) {
        UnredeemedIsSpent(cfg, s, client, jkt, code.value, redirect, verifier, ip);
      } else if s.codes[code.value].consumed {
        ReplayAddsAnAlarm(s, code.value);
      }
    }
  }

  lemma RefreshKeepsEnded(cfg: Config, s: State, client: string, jkt: nat, token: Option<Id>, ip: string, session: Id)
    requires Ended(s, session)
    ensures Ended(RefreshGrant(cfg, s, client, jkt, token, ip), session)
  {
  }

  /** Once a session is ended, by a revocation, a logout, an alarm, an administrator or
      its user's removal, no continuation hands out tokens for it. */
  lemma {:induction false} EndedSessionsGetNoTokens(cfg: Config, s: State, events: seq<Event>, session: Id, j: nat)
    requires Ended(s, session)
    requires |s.log| <= j < |Run(cfg, s, events).log| && Run(cfg, s, events).log[j].Tokens?
    ensures Run(cfg, s, events).log[j].session != session
    decreases |events|
  {
    hide Apply;
    if events != [] {
      var later := s.(now := s.now + events[0].dt);
      var t := Step(cfg, s, events[0]);
      assert t == Apply(cfg, later, events[0].action);
      ActionKeepsEnded(cfg, later, events[0].action, t, session);
      ActionSpares(cfg, later, events[0].action, t, session);
      LogGrows(cfg, t, events[1..], Run(cfg, t, events[1..]));
      if j >= |t.log| { EndedSessionsGetNoTokens(cfg, t, events[1..], session, j); }
    }
  }

  lemma ActionSpares(cfg: Config, s: State, action: Action, t: State, session: Id)
    requires Ended(s, session) && t == Apply(cfg, s, action)
    ensures s.log <= t.log
    ensures forall k :: |s.log| <= k < |t.log| && t.log[k].Tokens? ==> t.log[k].session != session
  {
    ApplyLogs(cfg, s, action, t);
    match action
    case ExchangeCode(client, jkt, code, redirect, verifier, ip) =>
      if Exchange(cfg, s, action) {
        CodeOpensAFamily(cfg, s, client, jkt, code, redirect, verifier, ip);
      } else {
        OtherCodesGetNothing(cfg, s, client, jkt, code, redirect, verifier, ip);
      }
    case UseRefresh(client, jkt, token, ip) =>
      if Exchange(cfg, s, action) {
        RefreshSpares(cfg, s, client, jkt, token, ip, session);
      } else {
        OtherRefreshesGetNothing(cfg, s, client, jkt, token, ip);
      }
    case _ => OthersLogNothing(cfg, s, action, t);
  }

  lemma RefreshSpares(cfg: Config, s: State, client: string, jkt: nat, token: Option<Id>, ip: string, session: Id)
    requires Ended(s, session) && Presentable(cfg, s, client, jkt, token)
    ensures
      var t := RefreshGrant(cfg, s, client, jkt, token, ip);
      |t.log| == |s.log| + 1 && t.log[|s.log|].session != session
  {
    HoldingReads(cfg, s, s.refresh[token.value].session, ip);
  }
}
