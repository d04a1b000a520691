/** The gateway's sign-in round trip (server/src/hyproxy/authz/gateway.py): a parked
    login state, its one callback, and the gateway session linked to an IdP session.

    What the token exchange and the two token checks yield is an input of a callback. */
module GatewayLogin {
  import opened Prelude
  import opened Rows
  import A = AuthzCheck
  import IdpSessions

  datatype Config = Config(stateTtl: int, sessions: IdpSessions.Config)

  datatype LoginState = LoginState(verifier: Id, nonce: Id, url: string, ip: string, expires: Instant)

  /** The verified claims that matter: the IdP session and the nonce. */
  datatype Claims = Claims(sid: Id, nonce: Id)

  /** What a callback brings back from the IdP, by the verifier it was asked with. */
  type Exchange = Id -> Option<Claims>

  datatype Entry =
    | Parked(at: Instant, state: Id, ip: string, url: string, nonce: Id)
    | Spent(at: Instant, state: Id, ip: string)
    | Opened(at: Instant, state: Id, ip: string, url: string, gateway: Id, claims: Claims)

  datatype State = State(
    now: Instant, next: Id, states: map<Id, LoginState>, sessions: map<Id, Session>,
    gateways: map<Id, GatewaySession>, log: seq<Entry>)

  /** GET `/gateway/start` with a return URL that passed its check. */
  function Park(cfg: Config, s: State, url: string, ip: string): State {
    var row := LoginState(s.next + 1, s.next + 2, url, ip, s.now + cfg.stateTtl * SECOND);
    s.(states := s.states[s.next := row], next := s.next + 3,
        log := s.log + [Parked(s.now, s.next, ip, url, s.next + 2)])
  }

  predicate Accepted(s: State, state: Id, ip: string) {
    state in s.states && s.states[state].expires > s.now && s.states[state].ip == ip
  }

  /** GET `/gateway/callback`. Once the state row passes, it is gone whatever follows. */
  function Callback(s: State, state: Id, ip: string, exchange: Exchange): State {
    if !Accepted(s, state, ip) then s
    else
      var row := s.states[state];
      var spent := s.(states := s.states - {state}, log := s.log + [Spent(s.now, state, ip)]);
      match exchange(row.verifier)
      case None => spent
      case Some(claims) =>
        if claims.nonce != row.nonce || claims.sid !in s.sessions then spent
        else
          var gw := GatewaySession(s.sessions[claims.sid].user, claims.sid, s.next + 1, ip, false);
          spent.(gateways := s.gateways[s.next := gw], next := s.next + 2,
                 log := spent.log + [Opened(s.now, state, ip, row.url, s.next, claims)])
  }

  /** The desk with its rows. */
  class Desk {
    var states: map<Id, LoginState>
    var gateways: map<Id, GatewaySession>
    var next: Id
    var log: seq<Entry>
    const sessions: IdpSessions.SessionTable
    const cfg: Config

    ghost predicate Valid()
      reads this, sessions
    {
      sessions.cfg == cfg.sessions
    }

    ghost function Snapshot(now: Instant): State
      reads this, sessions
    {
      State(now, next, states, sessions.rows, gateways, log)
    }

    constructor (cfg: Config)
      ensures Valid() && Snapshot(0) == INITIAL && fresh(sessions) && this.cfg == cfg
    {
      this.cfg := cfg;
      states, gateways, next, log := map[], map[], 0, [];
      sessions := new IdpSessions.SessionTable(cfg.sessions);
    }

    method Start(url: string, ip: string, now: Instant) returns (state: Id)
      modifies this
      ensures Snapshot(now) == Park(cfg, old(Snapshot(now)), url, ip)
      ensures state in states && states[state].url == url
    {
      state := next;
      var verifier, nonce := next + 1, next + 2;
      states := states[state := LoginState(verifier, nonce, url, ip, now + cfg.stateTtl * SECOND)];
      log := log + [Parked(now, state, ip, url, nonce)];
      next := next + 3;
    }

    method Finish(state: Id, ip: string, exchange: Exchange, now: Instant) returns (cookie: Option<Cookie>)
      modifies this
      ensures Snapshot(now) == Callback(old(Snapshot(now)), state, ip, exchange)
      ensures cookie.Some? ==> cookie.value.id in gateways && gateways[cookie.value.id].secret == cookie.value.secret
      ensures cookie.None? ==> gateways == old(gateways)
    {
      if state !in states || states[state].expires <= now || states[state].ip != ip { return None; }
      var row := states[state];
      states := states - {state};
      log := log + [Spent(now, state, ip)];
      var claims := exchange(row.verifier);
      if claims.None? { return None; }
      if claims.value.nonce != row.nonce { return None; }
      if claims.value.sid !in sessions.rows { return None; }
      gateways := gateways[next := GatewaySession(sessions.rows[claims.value.sid].user, claims.value.sid, next + 1,
          ip, false)];
      log := log + [Opened(now, state, ip, row.url, next, claims.value)];
      cookie := Some(Cookie(next, next + 1));
      next := next + 2;
    }

    /** `resolve_gateway_session` for a cookie that parses. */
    method Resolve(cookie: Cookie, ip: string, now: Instant, enforceIp: bool) returns (gateway: Option<Id>)
      requires Valid()
      modifies sessions
      ensures gateway.Some? <==> Resolves(cfg, old(Snapshot(now)), cookie, ip, enforceIp)
      ensures gateway.Some? ==> gateway.value == cookie.id
      ensures Snapshot(now) == AfterResolve(cfg, old(Snapshot(now)), cookie, ip, enforceIp)
    {
      if cookie.id !in gateways || gateways[cookie.id].revoked { return None; }
      if gateways[cookie.id].secret != cookie.secret { return None; }
      if enforceIp && gateways[cookie.id].ip != ip { return None; }
      var session := gateways[cookie.id].idpSession;
      if session !in sessions.rows { return None; }
      var live := sessions.CheckLiveness(session, ip, now, false);
      return if live then Some(cookie.id) else None;
    }

    method Logout(cookie: Cookie, ip: string, now: Instant)
      requires Valid()
      modifies this, sessions
      ensures Valid() && Snapshot(now) == SignOut(cfg, old(Snapshot(now)), cookie, ip)
    {
      var gateway := Resolve(cookie, ip, now, true);
      if gateway.Some? { gateways := gateways[cookie.id := gateways[cookie.id].(revoked := true)]; }
    }
  }

  predicate Named(s: State, cookie: Cookie, ip: string, enforceIp: bool) {
    cookie.id in s.gateways && !s.gateways[cookie.id].revoked && s.gateways[cookie.id].secret == cookie.secret
    && (enforceIp ==> s.gateways[cookie.id].ip == ip) && s.gateways[cookie.id].idpSession in s.sessions
  }

  predicate Resolves(cfg: Config, s: State, cookie: Cookie, ip: string, enforceIp: bool) {
    Named(s, cookie, ip, enforceIp) && IdpSessions.Alive(cfg.sessions, s.sessions[s.gateways[cookie.id].idpSession],
        s.now)
  }

  function AfterResolve(cfg: Config, s: State, cookie: Cookie, ip: string, enforceIp: bool): State {
    if !Named(s, cookie, ip, enforceIp) then s
    else
      var session := s.gateways[cookie.id].idpSession;
      s.(sessions := s.sessions[session := IdpSessions.Checked(cfg.sessions, s.sessions[session], ip, s.now, false)])
  }

  function SignOut(cfg: Config, s: State, cookie: Cookie, ip: string): State {
    var t := AfterResolve(cfg, s, cookie, ip, true);
    if Resolves(cfg, s, cookie, ip, true)
    then t.(gateways := t.gateways[cookie.id := t.gateways[cookie.id].(revoked := true)])
    else t
  }

  // --------------------------------------------------------------------- runs

  const INITIAL := State(0, 0, map[], map[], map[], [])

  /** `Elsewhere` is whatever happens to the IdP sessions, `Collect` the collection of
      expired login states. */
  datatype Action =
    | Begin(url: string, ip: string)
    | Return(state: Id, ip: string, exchange: Exchange)
    | Use(cookie: Cookie, ip: string, enforceIp: bool)
    | Leave(cookie: Cookie, ip: string)
    | Collect
    | Elsewhere(sessions: map<Id, Session>)

  datatype Event = Event(dt: nat, action: Action)

  function Apply(cfg: Config, s: State, action: Action): State {
    match action
    case Begin(url, ip) => Park(cfg, s, url, ip)
    case Return(state, ip, exchange) => Callback(s, state, ip, exchange)
    case Use(cookie, ip, enforceIp) => AfterResolve(cfg, s, cookie, ip, enforceIp)
    case Leave(cookie, ip) => SignOut(cfg, s, cookie, ip)
    case Collect => s.(states := map k | k in s.states && !(s.states[k].expires <= s.now) :: s.states[k])
    case Elsewhere(sessions) => s.(sessions := sessions)
  }

  function Step(cfg: Config, s: State, e: Event): State {
    Apply(cfg, s.(now := s.now + e.dt), e.action)
  }

  function Run(cfg: Config, s: State, events: seq<Event>): State
    decreases |events|
  {
    if events == [] then s else Run(cfg, Step(cfg, s, events[0]), events[1..])
  }

  // ------------------------------------------------------------- invariants

  /** The start a later entry about a state answers. */
  predicate Answers(cfg: Config, start: Entry, e: Entry) {
    && start.Parked? && !e.Parked? && start.state == e.state && start.ip == e.ip
    && start.at <= e.at < start.at + cfg.stateTtl * SECOND
    && (e.Opened? ==> e.url == start.url && e.claims.nonce == start.nonce)
  }

  predicate Holds(cfg: Config, start: Entry, id: Id, row: LoginState) {
    start.Parked? && start.state == id && start.ip == row.ip && start.url == row.url && start.nonce == row.nonce
    && row.expires == start.at + cfg.stateTtl * SECOND
  }

  ghost predicate Held(cfg: Config, log: seq<Entry>, id: Id, row: LoginState) {
    exists i :: 0 <= i < |log| && Holds(cfg, log[i], id, row)
  }

  ghost predicate Answered(cfg: Config, log: seq<Entry>, k: nat)
    requires k < |log|
  {
    exists i :: 0 <= i < k && Answers(cfg, log[i], log[k])
  }

  /** A state is parked once, spent once, opened once, in that order. */
  predicate Follows(first: Entry, second: Entry) {
    first.state == second.state ==> (first.Parked? && !second.Parked?) || (first.Spent? && second.Opened?)
  }

  ghost predicate StatesHeld(cfg: Config, s: State) {
    forall id :: id in s.states ==> id < s.next && Held(cfg, s.log, id, s.states[id])
  }

  predicate LogSane(s: State) {
    forall k :: 0 <= k < |s.log| ==>
      s.log[k].state < s.next && s.log[k].at <= s.now && (!s.log[k].Parked? ==> s.log[k].state !in s.states)
  }

  ghost predicate LogAnswered(cfg: Config, log: seq<Entry>) {
    forall k :: 0 <= k < |log| && !log[k].Parked? ==> Answered(cfg, log, k)
  }

  predicate Ordered(log: seq<Entry>) {
    forall i, j :: 0 <= i < j < |log| ==> Follows(log[i], log[j])
  }

  ghost predicate Inv(cfg: Config, s: State) {
    StatesHeld(cfg, s) && LogSane(s) && LogAnswered(cfg, s.log) && Ordered(s.log)
  }

  lemma HeldGrows(cfg: Config, log: seq<Entry>, e: Entry, id: Id, row: LoginState)
    requires Held(cfg, log, id, row)
    ensures Held(cfg, log + [e], id, row)
  {
    var i :| 0 <= i < |log| && Holds(cfg, log[i], id, row);
    assert (log + [e])[i] == log[i];
  }

  lemma AnsweredSnoc(cfg: Config, log: seq<Entry>, e: Entry)
    requires LogAnswered(cfg, log)
    requires e.Parked? || exists i :: 0 <= i < |log| && Answers(cfg, log[i], e)
    ensures LogAnswered(cfg, log + [e])
  {
    var log' := log + [e];
    forall k | 0 <= k < |log'| && !log'[k].Parked? ensures Answered(cfg, log', k) {
      if k < |log| {
        assert Answered(cfg, log, k);
        var i :| 0 <= i < k && Answers(cfg, log[i], log[k]);
        assert log'[i] == log[i];
      } else {
        var i :| 0 <= i < |log| && Answers(cfg, log[i], e);
        assert log'[i] == log[i];
      }
    }
  }

  lemma EntryKeepsInv(cfg: Config, s: State, t: State, e: Entry)
    requires Inv(cfg, s) && t.log == s.log + [e] && t.next >= s.next && t.now == s.now
    requires e.state < t.next && e.at == s.now && (!e.Parked? ==> e.state !in t.states)
    requires e.Parked? || exists i :: 0 <= i < |s.log| && Answers(cfg, s.log[i], e)
    requires forall k :: 0 <= k < |s.log| ==> Follows(s.log[k], e)
    requires forall id :: id in t.states ==>
               (id in s.states && t.states[id] == s.states[id])
                   || (id == e.state && s.next <= id && Holds(cfg, e, id, t.states[id]))
    ensures Inv(cfg, t)
  {
    AnsweredSnoc(cfg, s.log, e);
    forall id | id in t.states ensures id < t.next && Held(cfg, t.log, id, t.states[id]) {
      if id in s.states && t.states[id] == s.states[id] {
        HeldGrows(cfg, s.log, e, id, s.states[id]);
      } else {
        assert t.log[|s.log|] == e;
      }
    }
    forall i, j | 0 <= i < j < |t.log| ensures Follows(t.log[i], t.log[j]) {
      assert t.log[i] == s.log[i];
      if j < |s.log| { assert Follows(s.log[i], s.log[j]); }
    }
  }

  /** Nothing logged, and no state gained. */
  lemma FewerStates(cfg: Config, s: State, t: State)
    requires Inv(cfg, s) && t.log == s.log && t.next >= s.next && t.now >= s.now
    requires forall id :: id in t.states ==> id in s.states && t.states[id] == s.states[id]
    ensures Inv(cfg, t)
  {
  }

  lemma ParkKeepsInv(cfg: Config, s: State, url: string, ip: string, t: State)
    requires Inv(cfg, s) && t == Park(cfg, s, url, ip)
    ensures Inv(cfg, t)
  {
    EntryKeepsInv(cfg, s, t, t.log[|s.log|]);
  }

  lemma CallbackKeepsInv(cfg: Config, s: State, state: Id, ip: string, exchange: Exchange, t: State)
    requires Inv(cfg, s) && t == Callback(s, state, ip, exchange)
    ensures Inv(cfg, t)
  {
    if Accepted(s, state, ip) {
      var row := s.states[state];
      var spent := s.(states := s.states - {state}, log := s.log + [Spent(s.now, state, ip)]);
      var e := Spent(s.now, state, ip);
      var i :| 0 <= i < |s.log| && Holds(cfg, s.log[i], state, row);
      assert Answers(cfg, s.log[i], e);
      EntryKeepsInv(cfg, s, spent, e);
      if t.gateways != s.gateways || t.log != spent.log {
        var o := t.log[|spent.log|];
        assert spent.log[i] == s.log[i] && Answers(cfg, spent.log[i], o);
        EntryKeepsInv(cfg, spent, t, o);
      }
    }
  }

  lemma ApplyKeepsInv(cfg: Config, s: State, action: Action, t: State)
    requires Inv(cfg, s) && t == Apply(cfg, s, action)
    ensures Inv(cfg, t)
  {
    match action
    case Begin(url, ip) => ParkKeepsInv(cfg, s, url, ip, t);
    case Return(state, ip, exchange) => CallbackKeepsInv(cfg, s, state, ip, exchange, t);
    case Use(_, _, _) => FewerStates(cfg, s, t);
    case Leave(_, _) => FewerStates(cfg, s, t);
    case Collect => FewerStates(cfg, s, t);
    case Elsewhere(_) => FewerStates(cfg, s, t);
  }

  lemma StepKeepsInv(cfg: Config, s: State, e: Event, t: State)
    requires Inv(cfg, s) && t == Step(cfg, s, e)
    ensures Inv(cfg, t)
  {
    hide Inv, Apply;
    var later := s.(now := s.now + e.dt);
    assert Inv(cfg, later) by { FewerStates(cfg, s, later); }
    assert t == Apply(cfg, later, e.action);
    assert Inv(cfg, t) by { ApplyKeepsInv(cfg, later, e.action, t); }
  }

  lemma {:induction false} RunKeepsInv(cfg: Config, s: State, events: seq<Event>)
    requires Inv(cfg, s)
    ensures Inv(cfg, Run(cfg, s, events))
    decreases |events|
  {
    if events != [] {
      var t := Step(cfg, s, events[0]);
      StepKeepsInv(cfg, s, events[0], t);
      RunKeepsInv(cfg, t, events[1..]);
    }
  }

  /** The callback that opened a gateway row: its address and its IdP session. */
  predicate Opens(e: Entry, id: Id, gw: GatewaySession) {
    e.Opened? && e.gateway == id && e.ip == gw.ip && e.claims.sid == gw.idpSession
  }

  ghost predicate Linked(log: seq<Entry>, id: Id, gw: GatewaySession) {
    exists k :: 0 <= k < |log| && Opens(log[k], id, gw)
  }

  ghost predicate AllLinked(s: State) {
    forall id :: id in s.gateways ==> Linked(s.log, id, s.gateways[id])
  }

  lemma LinkedGrows(log: seq<Entry>, more: seq<Entry>, id: Id, gw: GatewaySession, now: GatewaySession)
    requires Linked(log, id, gw) && log <= more && now.ip == gw.ip && now.idpSession == gw.idpSession
    ensures Linked(more, id, now)
  {
    var k :| 0 <= k < |log| && Opens(log[k], id, gw);
    assert more[k] == log[k] && Opens(more[k], id, now);
  }

  /** A row that was there, with its address and its IdP session. */
  predicate Kept(s: State, id: Id, gw: GatewaySession) {
    id in s.gateways && gw.ip == s.gateways[id].ip && gw.idpSession == s.gateways[id].idpSession
  }

  lemma RowKeptOrOpened(cfg: Config, s: State, action: Action, t: State, id: Id)
    requires t == Apply(cfg, s, action) && id in t.gateways
    ensures s.log <= t.log
    ensures Kept(s, id, t.gateways[id])
      || (|t.log| == |s.log| + 2 && Opens(t.log[|s.log| + 1], id, t.gateways[id]))
  {
  }

  lemma StepKeepsLinks(cfg: Config, s: State, e: Event, t: State)
    requires AllLinked(s) && t == Step(cfg, s, e)
    ensures AllLinked(t)
  {
    hide Apply;
    var later := s.(now := s.now + e.dt);
    assert t == Apply(cfg, later, e.action);
    forall id | id in t.gateways ensures Linked(t.log, id, t.gateways[id]) {
      RowKeptOrOpened(cfg, later, e.action, t, id);
      if Kept(later, id, t.gateways[id]) {
        LinkedGrows(s.log, t.log, id, s.gateways[id], t.gateways[id]);
      }
    }
  }

  lemma {:induction false} RunKeepsLinks(cfg: Config, s: State, events: seq<Event>)
    requires AllLinked(s)
    ensures AllLinked(Run(cfg, s, events))
    decreases |events|
  {
    if events != [] {
      var t := Step(cfg, s, events[0]);
      StepKeepsLinks(cfg, s, events[0], t);
      RunKeepsLinks(cfg, t, events[1..]);
    }
  }

  // ------------------------------------------------------------ main results

  /** In every reachable state a gateway session, live or not, was opened by a callback
      from its own address, for the IdP session it is linked to. */
  lemma GatewaySessionsAreLinked(cfg: Config, events: seq<Event>, id: Id)
    requires id in Run(cfg, INITIAL, events).gateways
    ensures
      var s := Run(cfg, INITIAL, events);
      exists k :: 0 <= k < |s.log| && Opens(s.log[k], id, s.gateways[id])
  {
    RunKeepsLinks(cfg, INITIAL, events);
    assert Linked(Run(cfg, INITIAL, events).log, id, Run(cfg, INITIAL, events).gateways[id]);
  }

  /** Every gateway session is opened on a state parked before, from the address it was
      parked from, strictly inside the state's lifetime, with the nonce parked with it,
      and sends the browser to the URL parked with it. */
  lemma GatewaySessionsTraceToAStart(cfg: Config, events: seq<Event>, k: nat)
    requires k < |Run(cfg, INITIAL, events).log| && Run(cfg, INITIAL, events).log[k].Opened?
    ensures
      var log := Run(cfg, INITIAL, events).log;
      exists i :: 0 <= i < k && Answers(cfg, log[i], log[k])
  {
    RunKeepsInv(cfg, INITIAL, events);
    assert Answered(cfg, Run(cfg, INITIAL, events).log, k);
  }

  /** A state is parked as asked: for this address and URL, with a fresh verifier and
      nonce, for its lifetime. */
  lemma StartParks(cfg: Config, s: State, url: string, ip: string)
    ensures
      var t := Park(cfg, s, url, ip);
      && t.states == s.states[s.next := LoginState(s.next + 1, s.next + 2, url, ip, s.now + cfg.stateTtl * SECOND)]
      && t.log == s.log + [Parked(s.now, s.next, ip, url, s.next + 2)] && t.next == s.next + 3
      && t.gateways == s.gateways && t.sessions == s.sessions
  {
  }

  /** A callback opens a gateway session exactly when its state is parked, in time and
      from this address, and the exchange with the state's verifier brings the state's
      nonce and a session that exists; the state is spent whether or not it does. */
  lemma CallbackOpensIff(s: State, state: Id, ip: string, exchange: Exchange)
    ensures
      var t := Callback(s, state, ip, exchange);
      if !(state in s.states && s.now < s.states[state].expires && s.states[state].ip == ip) then t == s
      else
        var row := s.states[state];
        var claims := exchange(row.verifier);
        && t.states == s.states - {state} && t.sessions == s.sessions
        && if claims.Some? && claims.value.nonce == row.nonce && claims.value.sid in s.sessions
           then t.gateways == s.gateways[s.next := GatewaySession(s.sessions[claims.value.sid].user, claims.value.sid,
                                                                  s.next + 1, ip, false)]
                && t.log == s.log + [Spent(s.now, state, ip), Opened(s.now, state, ip, row.url, s.next, claims.value)]
           else t.gateways == s.gateways && t.log == s.log + [Spent(s.now, state, ip)]
  {
  }

  /** What resolves here is what the access check calls signed in. */
  lemma ResolvesAsTheCheckDoes(cfg: Config, s: State, acfg: A.Config, db: A.Db, cookie: Cookie, ip: string,
      enforceIp: bool)
    requires acfg.sessions == cfg.sessions && db.gateways == s.gateways && db.sessions == s.sessions
    ensures Resolves(cfg, s, cookie, ip, enforceIp)
       <==> A.SignedIn(acfg, db, Some(cookie), ip, s.now, enforceIp)
    ensures Resolves(cfg, s, cookie, ip, enforceIp)
       <==> A.GatewayLive(acfg, db, Some(cookie), ip, s.now, enforceIp)
  {
  }

  /** A collection takes exactly the states that are over. */
  lemma CollectionTakes(cfg: Config, s: State, k: Id)
    ensures
      var t := Apply(cfg, s, Collect);
      && (k in t.states <==> k in s.states && s.now < s.states[k].expires)
      && (k in t.states ==> t.states[k] == s.states[k]) && t == s.(states := t.states)
  {
  }

  /** Resolving a cookie that names an unrevoked row, by its secret and from its address
      where bound, checks the IdP session behind it, which an idle gap ends; and changes
      nothing else. */
  lemma ResolvingChecksTheSession(cfg: Config, s: State, cookie: Cookie, ip: string, enforceIp: bool)
    ensures
      var t := AfterResolve(cfg, s, cookie, ip, enforceIp);
      && t == s.(sessions := t.sessions) && t.sessions.Keys == s.sessions.Keys
      && (forall k :: k in s.sessions && !(cookie.id in s.gateways && k == s.gateways[cookie.id].idpSession) ==>
            t.sessions[k] == s.sessions[k])
      && (cookie.id in s.gateways && !s.gateways[cookie.id].revoked && s.gateways[cookie.id].secret == cookie.secret
          && (enforceIp ==> s.gateways[cookie.id].ip == ip) && s.gateways[cookie.id].idpSession in s.sessions ==>
            var before, after := s.sessions[s.gateways[cookie.id].idpSession], t.sessions[
                s.gateways[cookie.id].idpSession];
            && (!before.revoked && !before.stale && s.now < before.absoluteExpiry ==>
                  (after.revoked <==> s.now > before.lastSeen + cfg.sessions.idle))
            && after.stale == before.stale
            && (Resolves(cfg, s, cookie, ip, enforceIp) && s.now >= before.lastSeen + cfg.sessions.touchInterval ==>
                  after.lastSeen == s.now))
  {
    if cookie.id in s.gateways && s.gateways[cookie.id].idpSession in s.sessions {
      IdpSessions.CheckOnTheRow(cfg.sessions, s.sessions[s.gateways[cookie.id].idpSession], ip, s.now, false);
    }
  }

  /** The row is revoked, or not there, and its number is taken. */
  predicate SignedOut(s: State, id: Id) { id < s.next && (id in s.gateways ==> s.gateways[id].revoked) }

  lemma ActionKeepsSignedOut(cfg: Config, s: State, action: Action, t: State, id: Id)
    requires SignedOut(s, id) && t == Apply(cfg, s, action)
    ensures SignedOut(t, id)
  {
  }

  lemma {:induction false} RunKeepsSignedOut(cfg: Config, s: State, events: seq<Event>, id: Id)
    requires SignedOut(s, id)
    ensures SignedOut(Run(cfg, s, events), id)
    decreases |events|
  {
    hide Apply;
    if events != [] {
      var later := s.(now := s.now + events[0].dt);
      var t := Step(cfg, s, events[0]);
      assert t == Apply(cfg, later, events[0].action);
      ActionKeepsSignedOut(cfg, later, events[0].action, t, id);
      RunKeepsSignedOut(cfg, t, events[1..], id);
    }
  }

  predicate GatewaysNumbered(s: State) { forall id :: id in s.gateways ==> id < s.next }

  lemma ActionNumbersGateways(cfg: Config, s: State, action: Action, t: State)
    requires GatewaysNumbered(s) && t == Apply(cfg, s, action)
    ensures GatewaysNumbered(t)
  {
  }

  lemma {:induction false} RunNumbersGateways(cfg: Config, s: State, events: seq<Event>)
    requires GatewaysNumbered(s)
    ensures GatewaysNumbered(Run(cfg, s, events))
    decreases |events|
  {
    hide Apply;
    if events != [] {
      var later := s.(now := s.now + events[0].dt);
      var t := Step(cfg, s, events[0]);
      assert t == Apply(cfg, later, events[0].action);
      ActionNumbersGateways(cfg, later, events[0].action, t);
      RunNumbersGateways(cfg, t, events[1..]);
    }
  }

  /** In every reachable state a sign-out with a cookie that resolves ends that gateway
      session, and no other, for good: whatever happens afterwards, no cookie resolves
      to it again. */
  lemma SignOutIsFinal(cfg: Config, before: seq<Event>, cookie: Cookie, ip: string, after: seq<Event>, secret: Id,
      from: string, enforceIp: bool)
    requires Resolves(cfg, Run(cfg, INITIAL, before), cookie, ip, true)
    ensures
      var s := Run(cfg, INITIAL, before);
      var t := SignOut(cfg, s, cookie, ip);
      && t.gateways == s.gateways[cookie.id := s.gateways[cookie.id].(revoked := true)]
      && !Resolves(cfg, Run(cfg, t, after), Cookie(cookie.id, secret), from, enforceIp)
  {
    RunNumbersGateways(cfg, INITIAL, before);
    var t := SignOut(cfg, Run(cfg, INITIAL, before), cookie, ip);
    assert SignedOut(t, cookie.id);
    RunKeepsSignedOut(cfg, t, after, cookie.id);
  }

  /** A cookie that does not resolve signs nobody out. */
  lemma OtherSignOutsEndNothing(cfg: Config, s: State, cookie: Cookie, ip: string)
    requires !Resolves(cfg, s, cookie, ip, true)
    ensures SignOut(cfg, s, cookie, ip).gateways == s.gateways
  {
  }

  /** A state parked from this address, and the callback that answered it by opening
      this gateway session. */
  predicate RoundTrip(cfg: Config, start: Entry, end: Entry, id: Id, gw: GatewaySession) {
    Answers(cfg, start, end) && start.ip == gw.ip && Opens(end, id, gw)
  }

  /** The round trip behind every admission: in every reachable state a cookie that is
      accepted from an address names a session that was opened, inside the life of a
      state parked from that very address and with its nonce, for the IdP session whose
      liveness lets it pass now. */
  lemma AdmissionsTraceToAStart(cfg: Config, events: seq<Event>, cookie: Cookie, ip: string)
    requires Resolves(cfg, Run(cfg, INITIAL, events), cookie, ip, true)
    ensures
      var s := Run(cfg, INITIAL, events);
      var gw := s.gateways[cookie.id];
      && gw.ip == ip && IdpSessions.Alive(cfg.sessions, s.sessions[gw.idpSession], s.now)
      && exists i, k :: 0 <= i < k < |s.log| && RoundTrip(cfg, s.log[i], s.log[k], cookie.id, gw)
  {
    var s := Run(cfg, INITIAL, events);
    GatewaySessionsAreLinked(cfg, events, cookie.id);
    var k :| 0 <= k < |s.log| && Opens(s.log[k], cookie.id, s.gateways[cookie.id]);
    GatewaySessionsTraceToAStart(cfg, events, k);
    var i :| 0 <= i < k && Answers(cfg, s.log[i], s.log[k]);
    assert RoundTrip(cfg, s.log[i], s.log[k], cookie.id, s.gateways[cookie.id]);
  }

  /** A parked state is accepted at most once, whether or not that callback succeeds, so
      it opens at most one gateway session. */
  lemma StatesAreSingleUse(cfg: Config, events: seq<Event>, i: nat, j: nat)
    requires i < j < |Run(cfg, INITIAL, events).log|
    requires
      var log := Run(cfg, INITIAL, events).log;
      (log[i].Spent? && log[j].Spent?) || (log[i].Opened? && log[j].Opened?)
    ensures Run(cfg, INITIAL, events).log[i].state != Run(cfg, INITIAL, events).log[j].state
  {
    RunKeepsInv(cfg, INITIAL, events);
    var log := Run(cfg, INITIAL, events).log;
    assert Follows(log[i], log[j]);
  }
}
